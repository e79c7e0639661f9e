# Protocols and stores of the Agent Remote Host

A Dafny model of the parts of the Host package (`packages/agent-host`) in which several processes,
callbacks or crashes meet: leases on native sessions, starting and stopping the managed OpenCode
server, the admission boundary of session handoff, crash-safe settings, source cursors, and the
durable or cached stores beside them. Each module follows one source file. An object whose methods
update its fields is a class, and every method is tied to a function of its state; the transition
functions of the same state then drive runs of any length, in which other processes, failures,
crashes and restarts come between any two steps. The theorems are about all such runs: what
never happens in them, and from which of their states an operation can always complete.

`dafny verify dfyconfig.toml` checks the project.

## What is modelled

| file | subject |
|---|---|
| `NativeOwnership.dfy` | The lease on a native session: gate directory, ownership file, reservations, takeover request, transfer commit, withdrawal, release, and the terminal wrapper's child. Every file operation is a step, for any number of endpoints, with crashes. |
| `OpenCodeLifecycle.dfy` | Stop against start of the managed OpenCode server: preference revisions, marker files, control requests. |
| `SuccessionBoundary.dfy` | Admissions, reservations, effect starts and evidence pins of session handoff. |
| `JsonQuote.dfy`, `GatewaySettings.dfy` | Rewriting the managed Codex settings with three atomic writes, and the quoting (section 7 of RFC 8259) that makes the managed block recognizable. |
| `Base64Url.dfy`, `SourceBinding.dfy` | Source lookup with its generation cache, pinned reads, and signed cursor tokens (base64url, section 5 of RFC 4648). |
| `IdleSessions.dfy` | Leases, sweeps, releases and reconciliations of idle sessions. |
| `DaemonControl.dfy` | Durable restart control of the Codex daemon. |
| `CodexListing.dfy` | The incremental session listing against a changing native catalog. |
| `SuccessionReplay.dfy` | Stateless paging over committed handoffs. |
| `StatePublisher.dfy` | Session states, their reports of changes, and the copy a Relay keeps. |
| `SessionRefs.dfy` | Session references and the notes that tell an agent about them. |
| `SessionCallers.dfy` | Session credentials. |
| `JournalReader.dfy` | The incremental reader of the daemon's journals. |
| `RelayLog.dfy` | The rotating diagnostics log. |
| `SessionFamily.dfy` | The closure over parent links of bound sessions. |

## Where a claim needs a condition

Some properties one would like to state hold only under a condition. The code is modelled as it is;
the condition is part of the theorem, and a concrete run or state shows that it is needed.

- At most one endpoint has its ownership flag set, except while the old owner has already assigned the
  file to a requester and only its next statement, clearing the flag, is missing (`SingleOwner`). In
  that window a requester can withdraw and a third endpoint can acquire (`TwoOwnedFlags`);
  `TwoOwnersExactly` says when two flags are set. Two native writers never run at once even then
  (`OneWriter`).
- A successful stop of the OpenCode server leaves a native process running when its supervisor gave
  up waiting for the process tree and removed its marker (`OrphanSurvivesStop`), or crashed
  (`CrashSurvivesStop`), before the stop succeeded; in no other case (`StopBeatsOlderStarts`).
- A session registered as a handoff candidate can still see one effect start on it, from an input
  validated before the registration (`CandidateEffectHappens`); such an input keeps the commit check
  from passing (`ReservedEffectIsPrepared`).
- A Relay's copy of the session states misses a change that another connection's snapshot took in, until the
  next full report (`SnapshotHidesChange`); `DeltaIsExact` says exactly when a report of changes restores it.
- An agent's last note is the current list when notes reach it in order and no source was recorded
  silently since the note was written. A note overtaken by a newer one leaves the agent with the older
  list (`OvertakenNote`); a grant adopted after the first note is not told (`LateSourceIsSilent`). A
  session forgotten by the store while its note is on its way can count as told of changes it never
  heard of (`ForgottenWhileTelling`). Each is shown on a run from the empty store.
- A prepared session credential must be bound once (`BoundTwice`).
- An interrupted settings update is refused without the remembered previous block exactly when the
  model or the base URL changed (`PreviousBlockIsNeeded`).
- Following the page cursors reaches the end exactly when no handoff in scope is larger than a page
  and the cursor at the end of every page but the last has at most 4096 characters
  (`PagingIsComplete`). A role id of 512 three-byte characters stands twice in the cursor of a listing
  of that role, so such a listing can only ever be read when it is one page (`WideRoleHasOnePage`,
  `LongCursorStopsPaging`).
- A restart gives back exactly the stored credentials exactly when every address has the valid form;
  those of other addresses are dropped (`LoadsWhatWasSaved`).

## Assumptions

- Atomic file writes happen entirely or not at all; random identifiers are fresh; SHA-256 is
  injective; a serialized cursor is read back as it was written.
- A pid check may answer yes for a dead process, because its pid can be in use again, but never no for
  a live one.
- The error event of a terminal wrapper's child is taken to mean that no child was started.
- Supervisors that run answer control requests. OpenCode preference revisions are numbered in the
  order of their writes, and the health probe after a stop only appears as a possible failure.
- `OperationCache` (`packages/agent-remote-relay/src/operation-cache.ts`) appears as an abstract
  contract: entries, unsettled effects that are pinned or not, pins on a session's evidence, and expiry.
  Its capacity limits, which only refuse effects, are left out. Roles and captured contexts
  appear as the committed state of their stores.
- The native Codex catalog is ordered by update time, later changes get later times, only renames
  change a title without a new time, and it holds at most 500 sessions whenever it is read in full; a full
  listing sees one moment of it.

## Model

| member | source | states |
|---|---|---|
| `NativeOwnership.SingleOwner` | packages/agent-host/src/native-session-owner.ts:52-142 | In every reachable state of any number of endpoints, two live endpoints both have `owned` set only if one of them has already assigned the file and is about to clear its flag. |
| `NativeOwnership.TwoOwnersExactly` | packages/agent-host/src/native-session-owner.ts:76-140 | Two live endpoints have `owned` set if and only if one stands right after its commit and another one has a lease and is recorded, or is itself about to clear its flag. |
| `NativeOwnership.RecordedWhileHolding` | packages/agent-host/src/native-session-owner.ts:52-142 | In every reachable state the file names a live endpoint that has a lease if and only if it is the owner and has not given the session away or up. |
| `NativeOwnership.OwnerIsRecorded` | packages/agent-host/src/native-session-owner.ts:76-92 | A live owner outside its gated sections and that window is the one the ownership file names. |
| `NativeOwnership.OneWriter` | packages/agent-host/src/stdio-command.ts:30-57 | At most one live wrapper runs a native child for the session, and the ownership file names that wrapper. |
| `NativeOwnership.TwoOwnedFlags` | packages/agent-host/src/native-session-owner.ts:86-88 | A reachable state in which two live endpoints have `owned` set: the exception of SingleOwner is real. |
| `NativeOwnership.WithdrawnForGood` | packages/agent-host/src/native-session-owner.ts:123-131 | After a withdrawal that ran under the gate, the requester is never again recorded as owner or reserved, at any later point of the run. |
| `NativeOwnership.SuccessorIsFinal` | packages/agent-host/src/native-session-owner.ts:69-75 | Once a successor is set it never changes, over any run. |
| `NativeOwnership.HandedToSuccessorOnly` | packages/agent-host/src/native-session-owner.ts:79-87 | The file passes from a live owner to another endpoint only in the commit step, and only to its successor, which still has its reservation. |
| `NativeOwnership.GrantedIsRecorded` | packages/agent-host/src/native-session-owner.ts:116-121 | An endpoint whose takeover was granted finds itself recorded, so its last check before startup cannot fail. |
| `NativeOwnership.LeaseIsIntact` | packages/agent-host/src/native-session-owner.ts:134-134 | The old owner always finds itself recorded when it commits, and a lease that was never activated is still owned when it is activated. |
| `NativeOwnership.FollowsItsOwner` | packages/agent-host/src/native-session-owner.ts:101-114 | Whenever the file passes from one generation to another, the new one was told to take over from exactly that one, or from nobody while the old one's process had ended. |
| `NativeOwnership.RecordsItselfExactly` | packages/agent-host/src/native-session-owner.ts:101-107 | In its first gated section an endpoint can record itself if and only if there is no record, or that of a process that ended and of the owner it names, if it names one. |
| `NativeOwnership.DeadOwnerIsReplaced` | packages/agent-host/src/native-session-owner.ts:101-107 | Then it reaches its lease, owned and recorded, with nobody else touched. |
| `NativeOwnership.OtherGenerationIsRefused` | packages/agent-host/src/native-session-owner.ts:104-110 | One that names another generation than the recorded one of an ended process can refuse, and whatever it does leaves the file alone and its section without a lease. |
| `NativeOwnership.ChecksDecide` | packages/agent-host/src/native-session-owner.ts:101-114 | What the checks of an acquiring call decide: it refuses exactly for another generation's ended owner, asks exactly the live owner it names, and reserves exactly while that one is still recorded. |
| `NativeOwnership.ReservesForRecorded` | packages/agent-host/src/native-session-owner.ts:111-114 | A reservation is only ever written for the owner that is recorded at that moment. |
| `NativeOwnership.WriterCanStart` | packages/agent-host/src/stdio-command.ts:30-57 | From every reachable state with a fresh lease, its writer can be started and the lease activated. |
| `NativeOwnership.WriterStartsOnce` | packages/agent-host/src/stdio-command.ts:30-57 | A writer only starts where none runs, on an owned, recorded lease that is neither released nor being handed over. |
| `NativeOwnership.CrashedOwnerIsFollowed` | packages/agent-host/src/native-session-owner.ts:101-107 | A run in which owner 0 crashes and the endpoint told to take over from it ends recorded. |
| `NativeOwnership.GateIsGivenBack` | packages/agent-host/src/native-session-owner.ts:37-40 | From every reachable state in which a live endpoint holds the gate, its own steps give it back, whatever the files hold. |
| `NativeOwnership.HandoverCompletes` | packages/agent-host/src/native-session-owner.ts:59-121 | From every reachable state in which an active owner has a requester waiting and the gate is free, steps of these two alone end with the requester recorded and owned, and the old owner neither. |
| `NativeOwnership.CommitDecides` | packages/agent-host/src/native-session-owner.ts:79-87 | The commit finds itself recorded, hands over where the requester's reservation is there, and drops the lease exactly where the requester withdrew or its process ended. |
| `NativeOwnership.DropCompletes` | packages/agent-host/src/native-session-owner.ts:82-85 | A dropped lease leaves no record and no flag. |
| `NativeOwnership.FailedStopKeepsLease` | packages/agent-host/src/native-session-owner.ts:76-90 | A stop that fails ends the handover, and the lease stays owned and recorded. |
| `NativeOwnership.ReleaseCompletes` | packages/agent-host/src/native-session-owner.ts:135-140 | From every reachable state in which a lease without a child is held and the gate is free, releasing it leaves no record and no flag. |
| `NativeOwnership.HandedOverIsReleased` | packages/agent-host/src/native-session-owner.ts:135-140 | A lease that is no longer owned is released without touching anything shared. |
| `NativeOwnership.BusyGateIsNotAwaited` | packages/agent-host/src/native-session-owner.ts:37-40 | While the gate is busy a withdrawal is left out, a release throws and a handover fails, and the shared files stay as they are. |
| `NativeOwnership.WithdrawalCompletes` | packages/agent-host/src/native-session-owner.ts:123-131 | A failed requester that gets the gate leaves neither its reservation nor its record, and those of others as they were. |
| `NativeOwnership.Kept` | packages/agent-host/src/native-session-owner.ts:34-140 | Every step, including crashes inside the gate, keeps the invariant that ties flags, file, reservations, gate and requests together. |
| `OpenCodeLifecycle.StopBeatsOlderStarts` | packages/agent-host/src/opencode-server.ts:139-157 | Once a stop succeeded, a supervisor launched under its revision or an older one never gets a native process again; one that still has it had it when the stop succeeded, and had by then crashed or reported that its tree would not die. |
| `OpenCodeLifecycle.SpawnsAreNewer` | packages/agent-host/src/opencode-server-supervisor.ts:156-163 | A native process spawned after a successful stop belongs to a supervisor launched under a newer revision. |
| `OpenCodeLifecycle.NewerStartsAreSpared` | packages/agent-host/src/opencode-server.ts:148-153 | A stop request only ever reaches supervisors launched no later than the stop itself. |
| `OpenCodeLifecycle.OrphanSurvivesStop` | packages/agent-host/src/opencode-server-supervisor.ts:212-223 | A reachable state in which a stop succeeded and an older native process runs: its supervisor removed the marker after an unconfirmed kill. |
| `OpenCodeLifecycle.CrashSurvivesStop` | packages/agent-host/src/opencode-server.ts:148-153 | A reachable state in which a stop succeeded and an older native process runs: its marker was listed, but its crashed supervisor gave no answer and was passed over. |
| `OpenCodeLifecycle.NoNewHazard` | packages/agent-host/src/opencode-server-supervisor.ts:131-134 | After the stop wrote its preference no older supervisor newly comes to run or be about to spawn a native process. |
| `OpenCodeLifecycle.StartRuns` | packages/agent-host/src/opencode-server.ts:160-163 | A supervisor launched under the revision of an enabling write gets its native process at its check, whatever other commands and supervisors do, unless the preference was written again before. |
| `OpenCodeLifecycle.ChecksExactly` | packages/agent-host/src/opencode-server-supervisor.ts:131-134 | A supervisor spawns at its check if and only if it was not told to stop and read its own revision; otherwise it ends. |
| `OpenCodeLifecycle.RecheckInterrupts` | packages/agent-host/src/opencode-server-supervisor.ts:207-209 | A later check ends the startup if and only if the supervisor was told to stop or another write superseded its own. |
| `OpenCodeLifecycle.StopEndsNative` | packages/agent-host/src/opencode-server.ts:139-157 | A run in which a stop finds a running server, ends its native process and succeeds. |
| `OpenCodeLifecycle.SuccessIsCurrent` | packages/agent-host/src/opencode-server.ts:142-154 | A stop succeeds only while its own write is the last one; superseded, it neither asks nor succeeds any more. |
| `OpenCodeLifecycle.EndsCleanly` | packages/agent-host/src/opencode-server-supervisor.ts:212-223 | A run in which a server that ended by itself leaves neither a process nor a marker. |
| `OpenCodeLifecycle.RunsAgain` | packages/agent-host/src/opencode-server.ts:160-163 | A run in which the server is stopped and started again and its native process runs. |
| `OpenCodeLifecycle.Kept` | packages/agent-host/src/opencode-server-supervisor.ts:153-223 | Every step of supervisors, starts and stops keeps the invariant that links revisions read, markers and the stop's list of work. |
| `SuccessionBoundary.SessionSuccessionBoundary.Validate` | packages/agent-host/src/session-succession-boundary.ts:309-316 | Accepts a target exactly when the boundary is open, no handoff reserves it and the role store admits it. |
| `SuccessionBoundary.SessionSuccessionBoundary.AssertQuiescent` | packages/agent-host/src/session-succession-boundary.ts:208-212 | Accepts a session exactly when its coverage is known, it has no pending admission, unsettled effect or active work, and, with a captured cursor, it has not moved since. |
| `SuccessionBoundary.SessionSuccessionBoundary.Admit` | packages/agent-host/src/session-succession-boundary.ts:135-152 | Admits all targets or none; a refused admission changes nothing; each newly enabled session gains exactly one pin. |
| `SuccessionBoundary.SessionSuccessionBoundary.Reserve` | packages/agent-host/src/session-succession-boundary.ts:172-179 | Reserves a source only when quiet and unreserved; asking again for the same source changes nothing; restored reservations skip the admission check only. |
| `SuccessionBoundary.SessionSuccessionBoundary.RegisterCandidate` | packages/agent-host/src/session-succession-boundary.ts:180-189 | Adds the candidate in any case and reports a conflict exactly when it has pending or unsettled work or another handoff reserves it. |
| `SuccessionBoundary.SessionSuccessionBoundary.AssertCommit` | packages/agent-host/src/session-succession-boundary.ts:190-198 | Succeeds exactly when every reserved session is quiet, no other handoff reserves any of them, and the source has not moved past the captured cursor. |
| `SuccessionBoundary.SessionSuccessionBoundary.ReleaseReservation` | packages/agent-host/src/session-succession-boundary.ts:199-207 | Removes the reservation; each of its pins becomes the enabled session's pin after a commit, or is given back. |
| `SuccessionBoundary.CommitsExactly` | packages/agent-host/src/session-succession-boundary.ts:190-212 | The commit check passes if and only if the reservation exists, its source has not moved past a captured cursor, and every session of it is covered and idle, has no admitted, running or unsettled work, and is in no other reservation. |
| `SuccessionBoundary.SourceIsExclusive` | packages/agent-host/src/session-succession-boundary.ts:135-207 | From a successful reserve of a source until its release, nothing is admitted or unsettled on it, no prepared input waits for it, and no event starts an effect on it. |
| `SuccessionBoundary.ReservedEffectIsPrepared` | packages/agent-host/src/session-succession-boundary.ts:258-265 | An effect that starts on any reserved session comes from an input prepared before, and meanwhile no handoff reserving the session passes its commit check. |
| `SuccessionBoundary.CandidateEffectHappens` | packages/agent-host/src/session-succession-boundary.ts:180-189 | A reachable state in which an effect starts on a reserved candidate. |
| `SuccessionBoundary.CommitIsQuiet` | packages/agent-host/src/session-succession-boundary.ts:190-198 | When the commit check passes, every reserved session is quiet, belongs to this handoff alone, and no event can start an effect on it. |
| `SuccessionBoundary.PinsAreConserved` | packages/agent-host/src/session-succession-boundary.ts:144-207 | Over every run a session's evidence is pinned exactly once for being enabled and once for each reservation of it. |
| `SuccessionBoundary.EvidenceIsKept` | packages/agent-remote-relay/src/operation-cache.ts:119-134 | Over every run an effect, once begun, keeps its session unsettled until it is settled: it is pinned as it begins, so its operation never expires, whatever is admitted, released or handed over meanwhile. |
| `SuccessionBoundary.WorkIsConserved` | packages/agent-remote-relay/src/operation-cache.ts:277-296 | Every effect that begins and every piece of retained work counts as unsettled once, until it is settled once; nothing else adds or takes any. |
| `SuccessionBoundary.EndsExactly` | packages/agent-remote-relay/src/operation-cache.ts:119-127 | In every reachable state dispatched work ends only without inputs being prepared, its admission only after that, and its entry expires if and only if it ended, is not admitted and has no unsettled work. |
| `SuccessionBoundary.ClosedStartsNothingNew` | packages/agent-host/src/session-succession-boundary.ts:309-316 | After closing only effects of inputs prepared before still start. |
| `SuccessionBoundary.HandoffBecomesPossible` | packages/agent-host/src/session-succession-boundary.ts:172-179 | From every reachable state a session that one operation touches can be reserved once that operation's call returned without unsettled or prepared work. |
| `SuccessionBoundary.Kept` | packages/agent-host/src/session-succession-boundary.ts:135-316 | Every operation, effect start, settlement and handoff step keeps the boundary's invariant. |
| `JsonQuote.QuoteIsPrefixFree` | packages/agent-host/src/gateway-codex.ts:20-20 | No quoted string is a prefix of another quoted string with any text after it, unless both strings and the rest are equal. |
| `JsonQuote.BodyIsPrefixFree` | packages/agent-host/src/gateway-codex.ts:20-20 | The escaped body with its closing quote determines the string, surrogate pairs and lone surrogates included. |
| `GatewaySettings.CodexHome.Configure` | packages/agent-host/src/gateway-codex.ts:30-54 | One call: its refusals in the order of the code, and the two files after any number of its three writes. |
| `GatewaySettings.ManagedConfigIsPrefixFree` | packages/agent-host/src/gateway-codex.ts:19-21 | One managed block is a prefix of another plus a tail only when model, base URL and tails are equal. |
| `GatewaySettings.BlockIsFound` | packages/agent-host/src/gateway-codex.ts:38-43 | However the last run ended, the next one finds the managed block that was written and recovers all native text. |
| `GatewaySettings.InterruptionsAreRecovered` | packages/agent-host/src/gateway-codex.ts:36-52 | After any runs for one Host and Relay, each possibly stopped between its writes, with native text appended in between, the next run is accepted and leaves the new block followed by all native text. |
| `GatewaySettings.WritesExactly` | packages/agent-host/src/gateway-codex.ts:36-46 | For any files, a run writes if and only if the saved credentials validate and are of this Host and Relay and the settings file, if any, begins with one of the two managed blocks; otherwise both files stay. |
| `GatewaySettings.OnlyTheBlockIsReplaced` | packages/agent-host/src/gateway-codex.ts:38-52 | What is replaced in a settings file is exactly that block; every text after it is kept. |
| `GatewaySettings.PreviousBlockIsNeeded` | packages/agent-host/src/gateway-codex.ts:48-52 | Without the remembered previous block, the interrupted update is refused if and only if the model or the base URL changed. |
| `Base64Url.RoundTrip` | packages/agent-host/src/session-source-binding.ts:233-243 | Decoding an encoded byte string gives it back. |
| `SourceBinding.SessionSourceBindings.Refresh` | packages/agent-host/src/session-source-binding.ts:197-213 | Rebuilds the readers exactly when the store's generation changed, and fails exactly when a reader belongs to two roles, leaving the cache as it was. |
| `SourceBinding.SessionSourceBindings.ResolveSource` | packages/agent-host/src/session-source-binding.ts:175-183 | The cached lookup answers what a lookup in the current store would. |
| `SourceBinding.CacheSurvivesChange` | packages/agent-host/src/session-source-binding.ts:198-198 | A change of the store under a new generation leaves the cache consistent. |
| `SourceBinding.RolesHaveReaders` | packages/agent-host/src/session-source-binding.ts:200-211 | The reader map holds a reader exactly when one role with a committed handoff has it as participant, with that role's source. |
| `SourceBinding.LookupExtends` | packages/agent-host/src/session-source-binding.ts:175-183 | A later lookup of a reader still in its role has at least the lineage and revision of the earlier one. |
| `SourceBinding.PinnedReadSurvives` | packages/agent-host/src/session-source-binding.ts:100-168 | A cursor issued in one committed state is accepted and reads the same source by the same representation in every later state where the reader is still enrolled in that role without a pending association. |
| `SourceBinding.FirstReadIsCurrent` | packages/agent-host/src/session-source-binding.ts:110-160 | A read without a cursor answers from the session the reader is sent to: from the context stored for it if and only if native history does not contain that yet, and from native history else. |
| `SourceBinding.FirstReadExactly` | packages/agent-host/src/session-source-binding.ts:110-145 | It is answered if and only if the reader may read, the session is one of this Controller or the reader outside every role, and a context it would come from belongs to a committed handoff of that role and revision. |
| `SourceBinding.SentToCurrent` | packages/agent-host/src/session-source-binding.ts:173-181 | A participant of a role with a handoff is sent to the role's current session, and only for a source within the role's lineage. |
| `SourceBinding.SentToOriginal` | packages/agent-host/src/session-source-binding.ts:173-181 | Any other reader is sent to the session it was given. |
| `SourceBinding.MaterializedReadsNative` | packages/agent-host/src/session-source-binding.ts:132-134 | Once native history contains the context, a new read is native, while a cursor issued before keeps reading the context. |
| `SourceBinding.PinnedWithinLineage` | packages/agent-host/src/session-source-binding.ts:226-231 | A participant's native cursor is accepted if and only if its session is one of this Controller that the role started with or was handed to, at a revision the role has reached. |
| `SourceBinding.PinnedToOriginal` | packages/agent-host/src/session-source-binding.ts:226-231 | A native cursor of any other reader is accepted if and only if it names the session the reader was given. |
| `SourceBinding.PinnedToContext` | packages/agent-host/src/session-source-binding.ts:132-145 | A cursor pinned to a context only reads that very context, for the same session and a committed handoff of the same role and revision. |
| `SourceBinding.ProvenanceIsCommitted` | packages/agent-host/src/session-source-binding.ts:138-142 | A context has its provenance if and only if its handoff is the one that led to its revision, counted from 1. |
| `SourceBinding.Handed` | packages/agent-host/src/session-source-binding.ts:197-213 | Enrolling a role, handing it over, setting its participants and attaching its context leads to the state of ParticipantReads. |
| `SourceBinding.ParticipantReads` | packages/agent-host/src/session-source-binding.ts:110-160 | There the participant reads the context, nothing while an association is pending, and native history once that contains it. |
| `SourceBinding.TokenSplits` | packages/agent-host/src/session-source-binding.ts:233-239 | An issued token splits into exactly its prefix, body and signature. |
| `SourceBinding.IssuedDecodes` | packages/agent-host/src/session-source-binding.ts:232-246 | An issued context or page cursor decodes to itself for its reader, source and kind. |
| `SourceBinding.AcceptedIsSigned` | packages/agent-host/src/session-source-binding.ts:238-246 | Every accepted token is some body under its own authentication code, decoded from that body. |
| `SourceBinding.AcceptsExactly` | packages/agent-host/src/session-source-binding.ts:238-246 | A token is accepted if and only if it is, within 16384 characters, a body under its own code that parses to a cursor of the asking reader, source and kind. |
| `IdleSessions.IdleSessionTable.Watch` | packages/agent-host/src/idle-sessions.ts:66-73 | Resets the replaced entry and installs a new generation that takes over its users. |
| `IdleSessions.IdleSessionTable.Retain` | packages/agent-host/src/idle-sessions.ts:74-79 | Counts a lease on the current entry and resets it; does nothing when closed or unwatched. |
| `IdleSessions.IdleSessionTable.ReleaseLease` | packages/agent-host/src/idle-sessions.ts:80-86 | Gives a lease back once, to whatever entry is current by then. |
| `IdleSessions.IdleSessionTable.SetConnected` | packages/agent-host/src/idle-sessions.ts:91-95 | A change of the connection resets every entry. |
| `IdleSessions.IdleSessionTable.Sweep` | packages/agent-host/src/idle-sessions.ts:33-64 | One sweep over all entries: refresh in doubt, begin at most one reconciliation, begin releases of entries idle long enough. |
| `IdleSessions.IdleSessionTable.SettleRelease` | packages/agent-host/src/idle-sessions.ts:59-62 | The end of a release makes its own entry dormant or idle anew. |
| `IdleSessions.IdleSessionTable.SettleReconcile` | packages/agent-host/src/idle-sessions.ts:46-53 | The end of a reconciliation updates its entry only if nothing happened to it meanwhile. |
| `IdleSessions.UsersAreLeases` | packages/agent-host/src/idle-sessions.ts:66-87 | Over every run, `users` is the number of leases not yet released, also when a watch replaced the entry. |
| `IdleSessions.ReleaseStartsIdle` | packages/agent-host/src/idle-sessions.ts:33-64 | A release starts only in a sweep, connected and open, on a safe session without leases that was not disturbed during the whole preceding grace time. |
| `IdleSessions.IdleIsReleased` | packages/agent-host/src/idle-sessions.ts:33-64 | The other half: while connected and open, a sweep releases every safe session without leases that is neither released, being released nor reconciled and was left alone for the grace time. |
| `IdleSessions.ReleasedOnce` | packages/agent-host/src/idle-sessions.ts:59-62 | A release that succeeded makes its entry dormant for good; one that failed only sets its grace time going anew. |
| `IdleSessions.DoubtIsReconciled` | packages/agent-host/src/idle-sessions.ts:42-53 | A sweep begins the reconciliation of exactly the first session in doubt whose time has come, in the order of watching, unless one is under way. |
| `IdleSessions.SettledReconciliationDelays` | packages/agent-host/src/idle-sessions.ts:46-53 | The next reconciliation waits longer after each failure, at most a quarter of an hour, and the plain interval after a success; an overtaken one changes nothing but its mark. |
| `IdleSessions.ClosedBeginsNothing` | packages/agent-host/src/idle-sessions.ts:95-95 | After closing no release, reconciliation or lease begins. |
| `IdleSessions.StaleReconciliationIsIgnored` | packages/agent-host/src/idle-sessions.ts:46-53 | A reconciliation overtaken by any use or a new watch changes nothing but its own mark. |
| `IdleSessions.Kept` | packages/agent-host/src/idle-sessions.ts:22-95 | Every event keeps the count of users equal to the leases held, one entry per session. |
| `DaemonControl.CodexDaemonControl.Initialize` | packages/agent-host/src/codex-daemon-control.ts:31-42 | A restart found in progress on disk becomes unknown; a failed write leaves the Controller unable to restart anything. |
| `DaemonControl.CodexDaemonControl.Restart` | packages/agent-host/src/codex-daemon-control.ts:63-76 | Answers the operation already recorded, refuses old revisions and concurrent restarts, and otherwise makes the new intent durable under a fresh revision. |
| `DaemonControl.CodexDaemonControl.Complete` | packages/agent-host/src/codex-daemon-control.ts:46-62 | Records the outcome of its own operation only; a result that cannot be saved is unknown. |
| `DaemonControl.RevisionsAreConsumedOnce` | packages/agent-host/src/codex-daemon-control.ts:63-76 | Over requests, failed writes and crashes, each revision is consumed by at most one native restart. |
| `DaemonControl.DispatchIsDurableAndAlone` | packages/agent-host/src/codex-daemon-control.ts:65-75 | A dispatched restart is on disk before, and no other one of this Controller is in flight. |
| `DaemonControl.ReadyMeansReturned` | packages/agent-host/src/codex-daemon-control.ts:46-61 | `ready` is recorded, in memory or on disk, only for a restart whose native call returned. |
| `DaemonControl.RestartCanBegin` | packages/agent-host/src/codex-daemon-control.ts:63-76 | From every reachable state without a restart in progress a new operation is written, dispatched and the one that runs. |
| `DaemonControl.InitializedExactly` | packages/agent-host/src/codex-daemon-control.ts:31-42 | What the first look at the disk leads to, for every disk and write outcome; a Controller whose write failed answers nothing. |
| `DaemonControl.OutcomeIsRecorded` | packages/agent-host/src/codex-daemon-control.ts:46-62 | Unless the process ends first, what the native call came to is recorded under its operation and revision: ready, failed or unknown, and unknown with the intent still on disk when the result could not be saved. |
| `DaemonControl.InterruptedIsUnknown` | packages/agent-host/src/codex-daemon-control.ts:31-42 | A restart whose process ends before its completion is recorded as unknown by the next process, under its own operation and revision. |
| `DaemonControl.FailureIsAnswered` | packages/agent-host/src/codex-daemon-control.ts:46-76 | A run in which a refused restart is recorded, asked for again, and followed by another. |
| `DaemonControl.CrashIsUnknown` | packages/agent-host/src/codex-daemon-control.ts:31-42 | A run in which the process ends while a restart is out. |
| `CodexListing.CodexSessionDirectory.ListAll` | packages/agent-host/src/directory.ts:53-67 | Gathers up to five pages, fails on a repeated cursor, and caches the result only if no rename ended since it began. |
| `CodexListing.CodexSessionDirectory.Probed` | packages/agent-host/src/directory.ts:74-85 | Returns a short catalog, merges the probe with the unchanged rest, or goes on to a full listing. |
| `CodexListing.CodexSessionDirectory.Renamed` | packages/agent-host/src/directory.ts:117-120 | A rename that ended drops the cached listing and starts a new generation. |
| `CodexListing.FullListingIsCatalog` | packages/agent-host/src/directory.ts:53-67 | A full listing of an unchanging catalog is its newest 500 sessions in order, all of a smaller catalog. |
| `CodexListing.IncrementalIsCurrent` | packages/agent-host/src/directory.ts:74-85 | A listing answered by a probe holds every session of the catalog with its update time, with its title unless renamed since the call began, and besides only removed sessions of the previous listing not updated after the last probed one. |
| `CodexListing.CachedTitlesAreCurrent` | packages/agent-host/src/directory.ts:47-52 | What is cached shows every session not updated since it was read with its current title, unless a rename of it is under way. |
| `CodexListing.ListingFromBeforeIsNotKept` | packages/agent-host/src/directory.ts:47-67 | The answer to a probe, or to a full listing, begun before a rename ended leaves the cache alone. |
| `CodexListing.AnswerIsRecent` | packages/agent-host/src/directory.ts:74-85 | Whatever a probe answers was in the catalog after a reading of all of it that was younger than five minutes when the call began, or is that reading; so a removed session goes within that time. |
| `CodexListing.CacheGoesBack` | packages/agent-host/src/directory.ts:47-85 | A cached listing bears the time of a reading of the whole catalog, and holds only sessions that were there then or later. |
| `CodexListing.RenamedThenRemoved` | packages/agent-host/src/directory.ts:53-120 | A run in which a renamed session is read again with its new title and a removed one is gone from the next listing. |
| `SuccessionReplay.BuildPage` | packages/agent-host/src/local-succession-replay.ts:68-74 | The page loop takes the greatest prefix within both limits, or fails on an item larger than a page that it looks at. |
| `SuccessionReplay.ListingIsScope` | packages/agent-host/src/local-succession-replay.ts:38-67 | The sorted listing holds exactly the committed handoffs in scope, strictly ascending by role and revision. |
| `SuccessionReplay.KeptIsRest` | packages/agent-host/src/local-succession-replay.ts:66-67 | Filtering by the cursor of an entry gives exactly the entries after it. |
| `SuccessionReplay.FilledIsGreedy` | packages/agent-host/src/local-succession-replay.ts:69-74 | A page ends only at the count limit, at the byte limit or at the end. |
| `SuccessionReplay.PagingIsComplete` | packages/agent-host/src/local-succession-replay.ts:38-79 | Following the cursor from the start ends if and only if no handoff in scope exceeds a page and the cursor at the end of every page but the last fits; then the pages hold every committed handoff in scope once, in order, each page within both limits and not empty unless there is nothing. |
| `SuccessionReplay.AnsweredExactly` | packages/agent-host/src/local-succession-replay.ts:26-65 | A query is answered if and only if its selection, role, entries, counters and cursor are in order, and otherwise the first thing that is wrong decides between 400, 403 and 503. |
| `SuccessionReplay.WideRoleHasOnePage` | packages/agent-host/src/local-succession-replay.ts:76-78 | With the cursor's text, its UTF-8 length and base64url as written: when the selected role id has 512 three-byte characters, following the cursor reaches the end if and only if everything in scope makes up one page. |
| `SuccessionReplay.LongCursorStopsPaging` | packages/agent-host/src/local-succession-replay.ts:76-78 | For every Controller id, a store with two handoffs of one byte each and a query whose first page is answered with 503. |
| `StatePublisher.SessionStatePublisher.Current` | packages/agent-host/src/session-state-publisher.ts:59-70 | Merges fresh catalogs and open sessions in order and bounds the result. |
| `StatePublisher.SessionStatePublisher.SendChanges` | packages/agent-host/src/session-state-publisher.ts:74-81 | Publishes the current states and reports exactly the differences; does nothing without listeners. |
| `StatePublisher.SessionStatePublisher.Confirm` | packages/agent-host/src/session-state-publisher.ts:98-104 | Publishes the current states and reports all of them. |
| `StatePublisher.SessionStatePublisher.ReadCatalog` | packages/agent-host/src/session-state-publisher.ts:85-96 | Records one catalog reading or its failure. |
| `StatePublisher.PublishedIsCurrent` | packages/agent-host/src/session-state-publisher.ts:59-70 | At most 4096 sessions, each once; an open one with its own activity, any other from a catalog read within three minutes; below the bound every open session and every one of those catalogs; what the bound drops was not changed later than what it keeps. |
| `StatePublisher.ReadTouchesOne` | packages/agent-host/src/session-state-publisher.ts:85-96 | A catalog that is not due is left alone; an answer replaces its states; a failure keeps them with their old reading time; other catalogs never change. |
| `StatePublisher.ReadingGoesBack` | packages/agent-host/src/session-state-publisher.ts:85-96 | Over every run, what a catalog is taken to report is what it answered at the time the reading bears. |
| `StatePublisher.ReadingIsKept` | packages/agent-host/src/session-state-publisher.ts:82-96 | An answer of a catalog that was due is kept, through failures, until it answers again or is no longer asked. |
| `StatePublisher.DeltaIsExact` | packages/agent-host/src/session-state-publisher.ts:74-81 | After a report of changes the receiver holds exactly the published states if and only if it held the earlier ones wherever nothing changed. |
| `StatePublisher.FullRestores` | packages/agent-host/src/session-state-publisher.ts:98-104 | A full report leaves the receiver with exactly the published states, whatever it had. |
| `StatePublisher.DeltaApplies` | packages/agent-remote-hosted/src/broker.ts:670-682 | The Relay's removing and setting, with its own limit, turns the earlier states into the published ones; the limit never rejects one. |
| `StatePublisher.ReplicaIsExact` | packages/agent-remote-relay/src/transport/remote-host-uplink-client.ts:313-317 | From a full report on, the Relay's copy equals what is published after every tick, reading, confirmation and clock reading, until it leaves or another connection takes a snapshot. |
| `StatePublisher.ReplicaIsRecent` | packages/agent-host/src/session-state-publisher.ts:74-104 | From a full report on, the Relay's copy is what the Host knows at every tick and every confirmation, under the same premise. |
| `StatePublisher.SnapshotHidesChange` | packages/agent-host/src/session-state-publisher.ts:116-116 | A run in which another snapshot makes the receiver miss a change. |
| `SessionRefs.SessionRefStore.Add` | packages/agent-host/src/session-refs.ts:69-77 | Adds once, refuses beyond 32, counts up the revision and makes the holder the most recently changed. |
| `SessionRefs.SessionRefStore.Remove` | packages/agent-host/src/session-refs.ts:80-87 | Removes a reference the holder has. |
| `SessionRefs.SessionRefStore.SetSource` | packages/agent-host/src/session-refs.ts:93-99 | Records the source, counting up the revision only when the agent is to be told. |
| `SessionRefs.SessionRefStore.SetSourceRemoved` | packages/agent-host/src/session-refs.ts:102-109 | Hides or restores the source when that changes something. |
| `SessionRefs.SessionRefStore.MarkDelivered` | packages/agent-host/src/session-refs.ts:112-118 | Remembers the highest revision told, without changing the order of forgetting. |
| `SessionRefs.SessionRefStore.ReferencedBy` | packages/agent-host/src/session-refs.ts:121-129 | Lists the holders that reference a session, in the store's order. |
| `SessionRefs.SessionRefStore.ChangeSessionRef` | packages/agent-host/src/session-refs.ts:204-220 | Unless refused, the session afterwards references the target exactly when it was added, and every other reference is as before; refused exactly for itself, an unknown new target or a full list. |
| `SessionRefs.ReferrersMirror` | packages/agent-host/src/session-refs.ts:121-129 | A session is among the referrers of another exactly when the other is in its visible list. |
| `SessionRefs.VisibleTargets` | packages/agent-host/src/session-refs.ts:190-194 | The visible list names exactly the source unless removed and the added references. |
| `SessionRefs.ChangesAreTold` | packages/agent-host/src/session-refs.ts:223-228 | `delivered` never passes the revision, each note lists what was visible when it was written, and with nothing pending the newest revision was told; what the agent knows is then the current list unless an older note came last or a source was recorded silently since. |
| `SessionRefs.LastNoteIsCurrent` | packages/agent-host/src/session-reference-notes.ts:15-21 | With notes sent in order, the last list the agent was told is the current one whenever nothing is pending and no source was recorded silently since that note, also when references change while an input is on its way. |
| `SessionRefs.RevisionMeansChange` | packages/agent-host/src/session-refs.ts:69-109 | A revision counts up by one exactly when the references or the source of its own session change, except for a source recorded silently. |
| `SessionRefs.ToldIsKept` | packages/agent-host/src/session-refs.ts:112-118 | `delivered` only grows, and only a change makes a note pending. |
| `SessionRefs.OvertakenNote` | packages/agent-host/src/session-reference-notes.ts:16-20 | A run from the empty store in which a newer note is sent and marked before an older one is sent: nothing is pending and the agent has the older list. |
| `SessionRefs.LateSourceIsSilent` | packages/agent-host/src/session-refs.ts:178-186 | A run in which a source grant is adopted after the first note: nothing is pending and the agent's list lacks the source. |
| `SessionRefs.ForgottenWhileTelling` | packages/agent-host/src/session-refs.ts:144-145 | A run in which 4096 other sessions push one out while its note is on its way and it is added again: nothing is pending, `delivered` is above its revision, and the agent has the old list. |
| `SessionCallers.SessionCallerStore.Issue` | packages/agent-host/src/session-callers.ts:56-65 | Gives a session its stored credential or a new one; none to a shared session. |
| `SessionCallers.SessionCallerStore.Bind` | packages/agent-host/src/session-callers.ts:68-77 | Replaces a session's credential by a prepared one, unless the session is shared. |
| `SessionCallers.SessionCallerStore.MarkShared` | packages/agent-host/src/session-callers.ts:88-97 | Revokes the credential and keeps the session hidden, forgetting the oldest beyond the limit. |
| `SessionCallers.SessionCallerStore.Load` | packages/agent-host/src/session-callers.ts:43-53 | Rebuilds the maps from a saved document, passing over addresses of no valid form and short credentials. |
| `SessionCallers.IdentifiesItsSession` | packages/agent-host/src/session-callers.ts:79-83 | With agreeing maps a credential identifies exactly the session that stores it, and that session is not shared. |
| `SessionCallers.RememberKeeps` | packages/agent-host/src/session-callers.ts:99-104 | A new credential keeps the maps agreeing and pushes out at most the oldest one. |
| `SessionCallers.LoadsWhatWasSaved` | packages/agent-host/src/session-callers.ts:43-53 | Loading a saved store gives back its entries of valid addresses, in their order, with agreeing maps; the very same store if and only if all addresses are valid. |
| `SessionCallers.CredentialsAgree` | packages/agent-host/src/session-callers.ts:43-122 | Over every run with restarts, a credential identifies a session exactly when it is stored for it, no shared session has one, and both limits hold. |
| `SessionCallers.SharingRevokes` | packages/agent-host/src/session-callers.ts:88-97 | After a session is marked shared no credential identifies it. |
| `SessionCallers.IssuedIdentifies` | packages/agent-host/src/session-callers.ts:56-65 | Over every run the credential given out identifies its session from then on and is the one it had; only a shared session gets none. |
| `SessionCallers.BoundIdentifies` | packages/agent-host/src/session-callers.ts:68-77 | After binding, exactly the bound credential identifies the session, unless it is shared. |
| `SessionCallers.PreparedCanBeBound` | packages/agent-host/src/session-callers.ts:67-77 | A credential made for a session to come identifies nobody until it is bound, and can be. |
| `SessionCallers.WrittenSurvives` | packages/agent-host/src/session-callers.ts:43-53 | What was written before a restart identifies and hides the same sessions after it, as far as their addresses are valid; credentials not bound by then are lost. |
| `SessionCallers.BoundTwice` | packages/agent-host/src/session-callers.ts:70-76 | A prepared credential bound to two sessions is stored for both but identifies only the second. |
| `JournalReader.CodexDaemonMonitor.Visit` | packages/agent-host/src/codex-daemon-monitor.ts:46-62 | One look at one file: where it reads from, the lines it hands on, and its cursor afterwards. |
| `JournalReader.CodexDaemonMonitor.HandOn` | packages/agent-host/src/codex-daemon-monitor.ts:57-60 | Splitting at newlines hands on exactly the finished lines. |
| `JournalReader.HandsOnLines` | packages/agent-host/src/codex-daemon-monitor.ts:50-61 | Between the cursor and the last newline read, exactly the lines there are handed on, or some of them, none torn, when more than a mebibyte was added. |
| `JournalReader.LinesExactlyOnce` | packages/agent-host/src/codex-daemon-monitor.ts:38-66 | Over any appends, short reads and looks at any files, the lines handed on from a file are its finished lines up to the cursor, in order, each once. |
| `JournalReader.FullReadHandsAll` | packages/agent-host/src/codex-daemon-monitor.ts:50-61 | After a look that reads to the end, every finished line of the file was handed on, and the unfinished one was not. |
| `JournalReader.NeverTornOrTwice` | packages/agent-host/src/codex-daemon-monitor.ts:50-61 | Even with a larger backlog, what is handed on are finished lines of the file, in order, none twice. |
| `JournalReader.FewFilesAreRemembered` | packages/agent-host/src/codex-daemon-monitor.ts:62-62 | A process that looks at no more than sixteen files never forgets a cursor. |
| `RelayLog.RelayDiagnosticSink.Rotate` | packages/agent-host/src/relay-diagnostics.ts:35-49 | Moves every file up by one place, over the oldest archive, or drops the file without archives. |
| `RelayLog.RelayDiagnosticSink.Append` | packages/agent-host/src/relay-diagnostics.ts:15-31 | Writes all records of a valid batch, or none of an invalid one or one with a record over the limit. |
| `RelayLog.LogIsSuffix` | packages/agent-host/src/relay-diagnostics.ts:15-49 | Whatever batches came, the archives from the oldest on and the active file are the last records of all accepted ones, in order, none split or repeated; every file is within its limit, without gaps, and each was full when the next was begun. |
| `RelayLog.NothingDroppedYet` | packages/agent-host/src/relay-diagnostics.ts:35-49 | While the oldest archive is unused no record is dropped. |
| `RelayLog.AppendFits` | packages/agent-host/src/relay-diagnostics.ts:15-84 | Whatever was on disk before, an accepted batch leaves only files of the log within the limit, with its last record at the end of the active one. |
| `RelayLog.TailFits` | packages/agent-host/src/relay-diagnostics.ts:67-83 | A file over the limit keeps the valid records, in order, of its longest end of whole lines that fits. |
| `SessionFamily.NativeFamily` | packages/agent-host/src/host.ts:567-576 | Ends even when parent links run in circles, and returns exactly the bindings that are the root or descend from it through returned bindings, each once, parents first. |
| `SessionFamily.MutationFamily` | packages/agent-host/src/host.ts:577-580 | Covers exactly every target as named and, under this Host's controller, every bound descendant of one, no reference twice. |

## Left out

- NativeOwnership.OneWriter: a kill that fails to end the child, and Windows job handling, are not modelled.
- NativeOwnership.Kept: invalid records and other failing file operations, the admission callback and the grant given to it, diagnostics and request timeouts are not modelled; a timeout is the failure of the request. The step that ends a gated section sometimes includes its last file operation.
- OpenCodeLifecycle.StopBeatsOlderStarts: does not model the readiness probe, credentials or the published owner's fields, which do not decide whether a process may run.
- SuccessionBoundary.SourceIsExclusive: coverage and recovery writes, association admissions and the closing sequence beyond its flag are not modelled, because they only refuse more.
- GatewaySettings.CodexHome.Configure: directory checks and file modes are not modelled; whether saved credentials are acceptable is a parameter.
- SourceBinding.PinnedReadSurvives: read authorization by the Host, execution routing, page queries and the entries of a captured context are not modelled; they neither pin nor move the source.
- SourceBinding.IssuedDecodes: the serialization of a cursor is a parameter that is read back as written.
- IdleSessions.IdleSessionTable.Watch: entries are values under a generation number instead of objects, so aliasing of an entry object is not captured.
- DaemonControl.CodexDaemonControl.Complete: messages and timestamps are not modelled.
- CodexListing.IncrementalIsCurrent: a full listing reads the catalog at one moment; changes between its pages are not modelled. The sessions open in this process that are added to a listing are left out.
- SuccessionReplay.PagingIsComplete: a cursor is its content with any length function, of which `WireLength` is the one of the code; reading its text back is not modelled. The routes for the current handoff and for one operation are left out.
- StatePublisher.ReplicaIsExact: timers appear as ticks, and the receiver's time stamps of changes are not modelled.
- SessionRefs.LastNoteIsCurrent: titles and addresses in a note are not modelled, and what the agent of an adopted grant was told when its session was created is not counted as known.
- SessionFamily.NativeFamily: bindings are distinguished by their agent, as the keys of the map of bindings are.
- SessionRefs.SessionRefStore.Add: loading the saved file is not modelled.
- SessionCallers.CredentialsAgree: a restart finds the last file that was completely written.
- JournalReader.LinesExactlyOnce: the saved cursor file is not modelled, so the claim is about one process; parsing a line into an event is left out.
- RelayLog.LogIsSuffix: record contents, modes and file kinds are not modelled; the log starts without files.
- RelayLog.TailFits: files are whole lines; a line cut by the limit is taken to be no record.
- The write-once OpenCode credentials file, command lines, sockets, HTTP servers and the Relay uplink are left out.
- The rest of the Host (`host.ts`, `local-session-runtime.ts`), native adapters, tool schemas, session titles and diagnostics events are left out: wiring over stores and adapters that are not part of this model.
