# Verified model of the bot's stores and protocols

This project models the stateful core of the bot in Dafny and proves what that
core is for:

- the **account binding store** (`internal/plugins/account/store.go`): bindings,
  one-time tickets and login transactions in memory, a main file, and a
  write-ahead log with one slot;
- the **account service** on top of it (`internal/plugins/account/service.go`):
  refreshes, logins and unbinds of many users at once, each under a reference
  counted lock of its user, against a provider that rotates refresh credentials
  (RFC 6749 sections 6 and 10.4, RFC 7009 section 2);
- the **authorization store** (`internal/auth/auth.go`) and the command handlers
  that change roles (`internal/plugins/perm/perm.go`);
- the **health-check debouncer** and the **`{{name}}` placeholders** of the
  playground, the **Cloudflare record book**, and the **bundle collector**.

Each component that updates fields in place is a class whose methods are proved
against functions of its state (`BindingStore`, `AuthStore`, `LockTable`,
`AccountService`, `Scheduler`, `VarStore`, `RecordBook`, `Collector`). What the
program promises is then proved of those functions, for one call where it is about
one call, and for every run where it is about runs.

## How the protocol is modelled

A store operation is a function of the state, of the time, and of which of its
input and output steps succeed. Its result lists every state the disk passes
through; a crash leaves the disk in the state before the operation or in one of
those. An atomic file write replaces the file or leaves it alone. The cipher is
ideal (a ciphertext opens under exactly the data it was bound to), a digest is an
ideal hash, random tokens are new ones, time is in seconds.

`StoreRuns` is the store alone: any caller, any operation, any arguments, any
failures, crashes between any two disk effects, any number of restarts. `Service`
puts goroutines on top: every read of the store, every store operation and every
provider call is one step, and the steps of different goroutines interleave freely.
Every run of the service is a run of the store (`ServiceRunsTheStore`), so what
holds of all store runs holds in it. `AccountService` holds the operations as they
are written, and proves that they take exactly those steps.

`BookSpec` has the record book's commands each in one piece; in `BookRuns` every read
and update of the book and every API call is one step, between which any other
command may step. A command that meets no other does the same in both.

Beside the theorems about what runs keep, each operation has its *answer*: stated of
the state before, the state after, the inputs and which steps of input and output
succeed, without the functions that compute it, when exactly it succeeds, which error
it gives otherwise, and what is stored, granted or revoked then (`StoreAnswers`,
`StoreLoads`, `ServiceAnswers`, `AuthAnswers`, `BookAnswers`). `StoreUses`,
`ServiceOutcomes` and `ServiceLogins` carry these answers through runs: a login that is
on file is closed exactly in time and when that can be saved, a grant under its lock is
stored exactly when its identity is free, a refused refresh takes the permissions away,
an unbind revokes what it removed -- whatever happens in between.

The provider is known by the contract of its client alone: a refresh returns the
expected identity, an error means that no grant was returned, and a credential is
either the one presented or one never seen before. Provider permissions and display
names go through the two functions of `Service.Setup`; `Configured` supplies the
ones the program uses.

## What the proofs found

The following are consequences of the code as it is; each has a lemma.

- `Bind` does not refuse chat id 0, the other role and permission commands do. A
  file that holds it is refused by the next start-up (`BindZeroBreaksReload`). Every
  other reachable authorization state survives a restart (`SaveLoadRoundTrip`), and a
  run that never pairs id 0 never holds it (`RestartsWithoutZero`).
- The promote and demote handlers guard only their target. That the owner keeps the
  role also rests on the owner check in front of them: a run without it ends with no
  owner and pairing closed (`UncheckedPromotionStripsOwner`).
- A stored binding is what a restart finds after every nil return from a clean
  store. With another entry of the same user left behind in the log by an earlier
  failure, and the new entry not written, the restart finds the older binding
  (`NilReturnExactly`, `LeftoverLogWins`).
- Storing a binding skips the permission table on two failures; the table then still
  reflects the replaced binding, which shows exactly when the two differ
  (`SkippedPutFed`), until that user's next finished store, clearing failure or
  removal (`PermissionsRefineBindings`).
- The rotation discipline rests on sealing never failing, which holds of the Go
  release the module requires. Otherwise a rotated-away credential, and no other,
  would stay in memory (`SealFailureStrands`).
- A new ticket voids the user's earlier one for good exactly when it can be saved
  (`VoidedTicketReturns`, `IssueVoidsForGood`). When it cannot, the earlier one stays
  void in memory but is still in the main file, and a restart in time accepts it again.
- A repeated import changes no record unless the first one failed to save a record it
  added: that record is left unused, and the repetition attaches it (`ImportTwice`).
- No lock covers a record book command from its change at Cloudflare to its record.
  Commands may overlap as long as no two with different aims are on one hostname at
  once (`OverlappingAgrees`, `ApartAgrees`); where they are, the book can end up naming
  a worker the hostname is not attached to (`ClashesDisagree`).

## Model

| member | source | states |
|---|---|---|
| `StoreRuns.RecoveryNeverRejects` | internal/plugins/account/store.go:434-598 | in every reachable running store identities are one-to-one and every identity on disk is memory's; after any crash a restart can fail only on an I/O error, and finds exactly the recovered bindings |
| `StoreFacts.StartAccepts` | internal/plugins/account/store.go:103-127 | start-up accepts every disk a store can leave behind; stopped half-way the disk still recovers to the same bindings; finished, the log is gone and main file, memory and permission table agree |
| `StoreFacts.LoadAfterSave` | internal/plugins/account/store.go:434-540 | loading a saved file restores the bindings exactly, and the tickets and transactions still in date |
| `StoreFacts.OverlayAccepted` | internal/plugins/account/store.go:558-593 | the logged binding is never refused: its credential opens, its permissions are in stored form, its identity is nobody else's |
| `Records.RenderInjective` | internal/plugins/account/store.go:705-707 | the additional data of a credential or a transaction, rendered to a string, determines the user and subject or the digest, even if a subject holds the separator |
| `Records.SubjectKeyExact` | internal/plugins/account/store.go:457 | for one issuer the key under which identities are compared is equal exactly for equal subjects |
| `StoreEffects.PutIsCrashAtomic` | internal/plugins/account/store.go:281-346 | from a clean store, cut off after any number of disk effects and after any number of failed or interrupted restarts, a restart finds exactly the old bindings (before the first effect) or the old ones with this one replaced; a nil return means the latter |
| `StoreEffects.TriesKeepRecovered` | internal/plugins/account/store.go:558-598 | however many start-ups fail or are cut off half-way, the disk recovers to the same bindings |
| `StoreEffects.NilReturnExactly` | internal/plugins/account/store.go:318-334 | from any reachable store, after a nil return a restart finds the new binding if and only if the log was written, or held no entry of this user, or held this very binding |
| `StoreEffects.LeftoverLogWins` | internal/plugins/account/store.go:331-342 | two stores in a row, the first unable to remove its log and the second unable to write one: memory has the second credential, a restart the first |
| `StoreOps.PutCleanExactly` | internal/plugins/account/store.go:318-345 | which combinations of the three disk steps end with no log and a main file equal to memory, from any reachable store |
| `StoreOps.PreparedGood` | internal/plugins/account/store.go:281-317 | a record that passed every check is well formed, carries the credential given, and keeps identities one-to-one |
| `StoreOps.TicketStepSound` | internal/plugins/account/store.go:129-279 | every ticket and login operation, at any crash point, leaves a disk start-up accepts and the recovered bindings as they were |
| `StoreOps.PutSound` | internal/plugins/account/store.go:281-346 | after storing a binding, on any exit, the store invariant holds, and every disk passed through is one start-up accepts |
| `StoreOps.RemoveSound` | internal/plugins/account/store.go:382-407 | the same for unbinding, also when the log was cleared and the save then failed |
| `StoreOps.RecordFailureSound` | internal/plugins/account/store.go:409-432 | the same for a recorded failure, which never touches the log |
| `StoreRuns.CleanAgain` | internal/plugins/account/store.go:281-432 | no log and a main file equal to memory is kept by every operation, failed saves included, save a store that fails after memory was updated; a store with all disk steps succeeding, or a restart, restores it |
| `StoreRuns.PermissionsRefineBindings` | internal/plugins/account/store.go:119-125 | in every run, for every later time and every user but those whose last store returned before its permissions were replaced, the permission table grants exactly what the binding lists until it expires; a user's next finished store, clearing failure or removal ends the exception |
| `StoreEffects.PutFed` | internal/plugins/account/store.go:318-345 | storing a binding brings the table in step for its user on every exit but two, and disturbs nobody else |
| `StoreEffects.SkippedPutFed` | internal/plugins/account/store.go:335-342 | on those two exits the table agrees with the bindings if and only if the replaced binding granted the same until the same time |
| `StoreEffects.FailureFed` | internal/plugins/account/store.go:409-432 | a recorded refresh failure, saved or not, keeps the table in step, and brings it in step for a user whose permissions it clears |
| `StoreEffects.RemoveFed` | internal/plugins/account/store.go:382-407 | so does unbinding for the user it removes |
| `AuthSpec.StoredListSeeds` | internal/auth/auth.go:196-219 | the table never refuses the permissions of a stored binding, and takes over exactly that list |
| `StoreRuns.SingleUse` | internal/plugins/account/store.go:177-279 | over every run with crashes and failures no ticket is spent twice and no login is opened or closed twice |
| `StoreRuns.UsedIsGone` | internal/plugins/account/store.go:177-279 | a ticket spent or login closed is never again in memory or on disk, was spent by the user it was issued to, and within ten minutes |
| `StoreRuns.OneTicketPerUser` | internal/plugins/account/store.go:142-153 | at most one ticket a user is outstanding, in memory and on disk, in every reachable state |
| `StoreRuns.VoidedTicketReturns` | internal/plugins/account/store.go:142-157 | a new ticket voids the user's earlier one in memory at once; a restart before its expiry accepts it again if and only if the new one could not be saved |
| `StoreRuns.IssueVoidsForGood` | internal/plugins/account/store.go:142-157 | once a new ticket is issued and saved, no ticket issued to that user before is in memory or in the main file again, through any operations, failures, crashes and restarts |
| `StoreRuns.VoidStaysVoid` | internal/plugins/account/store.go:129-279 | in every run a ticket that was given out and is on file no more never comes back, in memory or on disk |
| `StoreRuns.FailedTradeIsUsable` | internal/plugins/account/store.go:226-254 | in every reachable store, after a trade that could not be saved the store is as it was but for what had expired: the ticket back, the login withdrawn, and any later trade of it, under any state, nonce and verifier, ends as it would have |
| `StoreRuns.FailedRedeemIsUsable` | internal/plugins/account/store.go:177-192 | a ticket whose redemption could not be saved is put back, and any later redemption ends as it would have |
| `StoreRuns.FailedCloseIsUsable` | internal/plugins/account/store.go:256-279 | the same for a login that could not be closed |
| `StoreRuns.UnbindIsFinal` | internal/plugins/account/store.go:382-407 | after a reported removal no binding of the user is in memory, main file or log, whatever the log held, through any operations, crashes and restarts until one is stored for that user again |
| `StoreRuns.StepBrings` | internal/plugins/account/store.go:281-598 | every binding found after a step, in memory or on disk, was there before or is the one the step stored |
| `StoreUses.BindsExactly` | internal/plugins/account/store.go:281-346 | in every reachable store an item is stored if and only if its user id is positive, its issuer the configured one, subject and credential not empty, its permissions at most 1000 that all parse, its identity nobody else's and not another one of this user's, and its credential is sealed; with all disk steps succeeding the return is nil and the table grants exactly its permissions until they expire |
| `StoreUses.FirstUserBinds` | internal/plugins/account/store.go:103-127 | a new installation starts and binds any such first user |
| `StoreUses.UnbindsExactly` | internal/plugins/account/store.go:382-407 | in every reachable store unbinding hands out the credential the user was bound with if and only if the user is bound, the log could be read, an entry of the user's in it removed, and the rest saved |
| `StoreUses.TicketStaysOnFile` | internal/plugins/account/store.go:129-192 | a ticket on file stays there, in memory and in the main file, until it is used, voided by a new one or run out, through any operations, failures, crashes and restarts |
| `StoreUses.LoginStaysOnFile` | internal/plugins/account/store.go:203-279 | so does a login until it is closed or run out |
| `StoreUses.TicketUsesExactly` | internal/plugins/account/store.go:161-254 | in every reachable store a ticket on file names the user it was issued to, and is spent or traded for that user exactly before its ten minutes are over and if that can be saved |
| `StoreUses.LoginClosesExactly` | internal/plugins/account/store.go:256-279 | in every reachable store closing a login on file that was opened with a nonce and a verifier returns exactly the login that was opened, before its ten minutes are over and if and only if that can be saved |
| `StoreUses.LoginCompletes` | internal/plugins/account/store.go:129-279 | a ticket issued and saved, then traded and saved in time, gives back its user, nonce and verifier when the login is closed in time, whatever else happens in between, crashes and restarts included |
| `StoreAnswers.PutAnswers` | internal/plugins/account/store.go:281-346 | when an item is stored, which of the four refusals it gets otherwise, how it is stored, what each combination of disk steps returns, and what the table grants then |
| `StoreAnswers.PreparedAnswer` | internal/plugins/account/store.go:281-317 | the record made of an accepted item: names, identity and expiry as given, each list sorted without repeats, credential sealed, first binding time kept, due in five minutes; or the first reason against it |
| `StoreAnswers.RemoveAnswers` | internal/plugins/account/store.go:382-407 | an unbound user has nothing to remove; a bound one's binding and permissions go exactly when log and main file can be worked on, otherwise memory and table stay and the failing step is the error |
| `StoreAnswers.FailureAnswers` | internal/plugins/account/store.go:409-432 | a saved clearing failure leaves a binding without permissions and expiry and an empty table entry, any other saved one both as they were; the next attempt is due in five minutes; what cannot be saved changes nothing |
| `StoreAnswers.RefreshTokenAnswers` | internal/plugins/account/store.go:372-380 | a bound user's credential is handed out if and only if the user still has the identity asked about |
| `StoreAnswers.IssueAnswers` | internal/plugins/account/store.go:129-159 | a ticket is given to every proper user, exactly when it can be saved, with names trimmed and cut, for ten minutes, in place of the user's earlier ones |
| `StoreAnswers.LookupAnswers` | internal/plugins/account/store.go:161-175 | a ticket on file and in date names its account, anything else is refused; only what has expired is dropped |
| `StoreAnswers.RedeemAnswers` | internal/plugins/account/store.go:177-192 | such a ticket is spent for its user exactly when that can be saved, and is on file as before when not |
| `StoreAnswers.TradeAnswers` | internal/plugins/account/store.go:226-254 | such a ticket is traded exactly when that can be saved, and the login is then on file with its user, both secrets and ten minutes to go |
| `StoreAnswers.BeginAnswers` | internal/plugins/account/store.go:203-224 | a login is opened exactly when it can be saved |
| `StoreAnswers.CloseAnswers` | internal/plugins/account/store.go:256-279 | a login in date with both secrets is closed as it was filed exactly when that can be saved, and is on file as before when not; one whose secrets do not open is dropped |
| `StoreAnswers.DueAgain` | internal/plugins/account/store.go:355-370 | what was just stored or failed is due again in five minutes, and earlier only as its permissions run out |
| `StoreLoads.LoadsExactly` | internal/plugins/account/store.go:449-474 | a listing is accepted if and only if every record in it can be used and no user and no identity is listed twice; then it is taken over record by record |
| `StoreLoads.FileLoadsExactly` | internal/plugins/account/store.go:434-493 | the main file loads if and only if there is none, or it is of this version, issuer and client and its records are accepted |
| `StoreLoads.LogOverlaysExactly` | internal/plugins/account/store.go:558-593 | the log is laid over memory if and only if it is of this version, issuer and client, its record can be used, and no identity is then bound twice |
| `StoreLoads.BadFileStopsStart` | internal/plugins/account/store.go:103-118 | a main file that is not accepted stops the start-up and is left as it is |
| `ServiceRuns.PresentsNewest` | internal/plugins/account/service.go:242-251 | in every interleaving, under any failures, each refresh presents the newest credential returned for that binding in this process, never a superseded or revoked one |
| `ServiceRuns.SupersededForGood` | internal/plugins/account/service.go:251-278 | until a restart a credential replaced as the newest of its binding stays superseded |
| `ServiceRuns.NothingStray` | internal/plugins/account/service.go:323-340 | whenever a login or refresh is done with a grant, the user's binding carries its credential, unrevoked, or it was revoked |
| `ServiceRuns.StoredIsNotRevoked` | internal/plugins/account/service.go:285-340 | no credential in memory or on disk, also after crashes and restarts, was ever revoked, and each was returned for that very binding |
| `ServiceRuns.LateChecksPass` | internal/plugins/account/service.go:252-277 | the checks after the provider's answer never fail: every grant goes on to be stored, every failure to be recorded |
| `ServiceRuns.StaleSnapshotHarmless` | internal/plugins/account/service.go:192-221 | a sweep working from any old snapshot writes only to a binding with the snapshot's own identity, and touches no other user |
| `ServiceRuns.UnbindIsFinal` | internal/plugins/account/service.go:285-296 | after an unbind the user has no binding anywhere, through refreshes under way, sweeps, failures, crashes and restarts, until a login for that user stores one |
| `ServiceRuns.Provenance` | internal/plugins/account/service.go:105-174 | every binding, in memory, main file or log, goes back to a ticket issued to its user, traded once and closed once, both in time, and exchanged with the nonce and verifier it was opened with for a grant of the binding's identity |
| `ServiceRuns.OneGoroutineAUser` | internal/plugins/account/service.go:298-321 | no two goroutines run for one user at once, and the lock table is empty when all have left |
| `ServiceRuns.ServiceRunsTheStore` | internal/plugins/account/service.go:54-62 | every run of the service is a run of the store |
| `ServiceRuns.SealFailureStrands` | internal/plugins/account/store.go:312-317 | were sealing to fail when a refresh stores its credential, memory would stay as it was, and carry the newest credential if and only if that had not been rotated |
| `ServiceRuns.StepKeeps` | internal/plugins/account/service.go:121-340 | every step of every goroutine, ticket operation, crash and restart keeps the invariant of all goroutines together |
| `ServiceOutcomes.GrantTakesEffect` | internal/plugins/account/service.go:139-174 | in every run a grant under its user's lock is stored if and only if it is usable, its identity free for the user and sealing succeeds; the binding then has the grant's identity, names, expiry and credential and, sorted, exactly those of its permissions that stand for one here; with the disk written the table grants exactly these until the expiry |
| `ServiceOutcomes.RefreshStores` | internal/plugins/account/service.go:265-282 | a refresh's grant always fits, so that it is reported stored if and only if the disk could be written |
| `ServiceOutcomes.RefreshAsks` | internal/plugins/account/service.go:225-251 | in every run a refresh whose user has the identity it is for presents the credential memory holds; any other ends there |
| `ServiceOutcomes.AnswersAreKept` | internal/plugins/account/service.go:126-137 | what the provider grants goes on to be stored, a refresh's with the credential presented where it brought none; a refused login ends there |
| `ServiceOutcomes.RefusalTakesEffect` | internal/plugins/account/service.go:252-264 | in every run, when a refresh is refused and that is recorded, anything else happening in between, a rejected or denied credential has cost the user all permissions, in the binding and in the table, and any other refusal none; what could not be saved changes nothing |
| `ServiceOutcomes.UnbindRevokes` | internal/plugins/account/service.go:285-296 | in every run an unbind of a bound user whose steps succeed ends with the credential among the revoked ones, no binding and no permissions, anything else happening in between |
| `ServiceOutcomes.UnbindWithout` | internal/plugins/account/service.go:285-296 | any other unbind ends at once with memory and provider as they were |
| `ServiceOutcomes.OthersSteps` | internal/plugins/account/service.go:298-321 | whatever other goroutines, ticket operations and newcomers do, a goroutine under its lock finds its user's binding and permissions as it left them |
| `ServiceLogins.LoginStarts` | internal/plugins/account/service.go:126-132 | closing a login in time and saved starts a goroutine with exactly the login that was opened, anything else none |
| `ServiceLogins.BodyBegins` | internal/plugins/account/service.go:225-298 | under its user's lock a goroutine begins with the first step of its operation |
| `ServiceLogins.LoginBinds` | internal/plugins/account/service.go:126-174 | in every run a login that took its user's lock and was granted, anything else happening in between, binds the user as granted if and only if the grant fits then |
| `ServiceAnswers.GrantAnswers` | internal/plugins/account/service.go:139-174 | when a grant is stored, when storing it returns nil, and what binding and table say then |
| `ServiceAnswers.StoredReflects` | internal/plugins/account/service.go:143-165 | the stored binding lists a permission if and only if some code of the grant stands for it |
| `ServiceInv.PersistKeeps` | internal/plugins/account/service.go:139-174 | storing a grant under the lock: accepted, memory carries it; refused, memory holds another identity and is still current |
| `ServiceInv.ReadKeeps` | internal/plugins/account/service.go:242-283 | what a goroutine knows of its user's binding survives each of its reads |
| `ServiceInv.PcStable` | internal/plugins/account/service.go:298-321 | and every step of any other user's goroutine |
| `ServiceInv.RemovingKeeps` | internal/plugins/account/service.go:285-296 | a removed binding's credential is held by nothing else when it is revoked |
| `ServiceInv.RecordingKeeps` | internal/plugins/account/service.go:252-264 | recording a failure changes neither identity nor credential |
| `ServiceInv.SameIdentityIsPrepared` | internal/plugins/account/service.go:139-168 | a usable grant for the identity the user already has passes every check of the store |
| `ServiceInv.RefreshReply` | internal/plugins/account/service.go:251-277 | the answer to a refresh makes its credential, or the one presented, the newest of exactly this binding |
| `Locks.MutualExclusion` | internal/plugins/account/service.go:298-321 | in every run no two goroutines hold one user's lock, all of a user's refer to the entry the table has, and its count is their number |
| `Locks.OnlyOwnUserBlocks` | internal/plugins/account/service.go:311 | a waiting goroutine can take the lock if and only if nobody holds this very user's |
| `Locks.NoIdleEntries` | internal/plugins/account/service.go:313-319 | the table has an entry for exactly the users somebody is registered for |
| `Locks.NeverStuck` | internal/plugins/account/service.go:298-321 | in every run a newcomer can register, a holder unlock and one that unlocked leave; only a held mutex makes anybody wait |
| `LockTable.LockTable.Register` | internal/plugins/account/service.go:299-309 | finds or creates the entry and counts one more, keeping the table well formed |
| `LockTable.LockTable.Lock` | internal/plugins/account/service.go:311 | taking a free mutex makes this goroutine the one holder |
| `LockTable.LockTable.Unlock` | internal/plugins/account/service.go:313 | releasing it leaves the user without a holder and every count alone |
| `LockTable.LockTable.Leave` | internal/plugins/account/service.go:314-319 | dropping the last reference, and only that, deletes the user's entry |
| `AccountService.ActIsNext` | internal/plugins/account/service.go:121-340 | a goroutine's step in the machine is the step its body takes |
| `AccountService.AccountService.RefreshOne` | internal/plugins/account/service.go:242-283 | the refresh as written takes exactly the machine's steps; a refusal is recorded as clearing or not, and saved leaves no permissions or all; a grant is stored exactly when it fits and could be written, and revoked if the binding does not carry it |
| `AccountService.AccountService.CheckAndKeep` | internal/plugins/account/service.go:265-282 | its second half, from the last look at the binding to the stored or revoked grant, likewise |
| `AccountService.AccountService.NoteFailure` | internal/plugins/account/service.go:252-264 | its failure branch: recorded exactly if the user is bound and it can be saved, with or without clearing as told |
| `AccountService.AccountService.PersistGrant` | internal/plugins/account/service.go:139-174 | mapping and storing a grant takes exactly the machine's steps and returns the stored binding if and only if the grant fits and could be written; the binding lists exactly the permissions the grant's codes stand for, with its identity, names, expiry and credential |
| `AccountService.AccountService.RevokeUnstoredGrant` | internal/plugins/account/service.go:323-340 | the credential is revoked if and only if there is one and the user's binding does not carry it |
| `AccountService.AccountService.RefreshNow` | internal/plugins/account/service.go:225-240 | a refresh on request, with the same outcomes; the binding it returns is the one memory has, and is what the grant says |
| `AccountService.AccountService.Complete` | internal/plugins/account/service.go:126-137 | a login after its transaction was consumed: a refusal changes nothing, a grant is stored exactly when it fits and could be written, and otherwise revoked if the binding does not carry it |
| `AccountService.AccountService.Unbind` | internal/plugins/account/service.go:285-296 | removes exactly when the user is bound and log and main file can be worked on, and then has revoked the credential the binding carried |
| `BindingStore.BindingStore.IssueTicket` | internal/plugins/account/store.go:129-159 | new memory, disk states and result are those of the ticket operation the run theorems are about, on every exit, with its answer |
| `BindingStore.BindingStore.LookupTicket` | internal/plugins/account/store.go:161-175 | the same for previewing a ticket |
| `BindingStore.BindingStore.ConsumeTicket` | internal/plugins/account/store.go:177-192 | the same for spending one, with its rollback |
| `BindingStore.BindingStore.BeginTransaction` | internal/plugins/account/store.go:203-224 | the same for opening a login |
| `BindingStore.BindingStore.BeginFromTicket` | internal/plugins/account/store.go:226-254 | the same for trading a ticket for a login in one save |
| `BindingStore.BindingStore.ConsumeTransaction` | internal/plugins/account/store.go:256-279 | closing a login, also when its secrets do not open: one in date with both secrets is returned as filed exactly when that can be saved |
| `BindingStore.BindingStore.PutBinding` | internal/plugins/account/store.go:281-346 | storing a binding: every check, all five exits, log, main file and permission table in order; accepted exactly when nothing speaks against it, and stored as asked for |
| `BindingStore.BindingStore.Prepare` | internal/plugins/account/store.go:281-317 | the record to be stored as it was asked for, or the first of the reasons against it |
| `BindingStore.BindingStore.TakenByAnother` | internal/plugins/account/store.go:295-299 | whether some other user has the identity |
| `BindingStore.BindingStore.Store` | internal/plugins/account/store.go:317-345 | memory, log, main file, log removal and permission table, in that order, with every failure in between |
| `BindingStore.BindingStore.GrantFederated` | internal/plugins/account/store.go:343-345 | the stored permissions take effect until they expire |
| `StoreEffects.ReadsBack` | internal/plugins/account/store.go:281-380 | on every exit after the credential was sealed, failures included, the user's binding reads back with the permissions given in stored form and its identity opens to that credential; refused, nothing changed; no other user's binding changes |
| `BindingStore.BindingStore.VoidTickets` | internal/plugins/account/store.go:142-146 | exactly the user's own tickets are dropped |
| `BindingStore.BindingStore.Remove` | internal/plugins/account/store.go:382-407 | unbinding, with the log entry cleared first and memory rolled back on a failed save: removed exactly when the user is bound and all steps succeed |
| `BindingStore.BindingStore.RecordRefreshFailure` | internal/plugins/account/store.go:409-432 | a failed refresh, with its rollback: what the saved failure leaves of binding and table, and nothing when it was not saved |
| `BindingStore.BindingStore.Due` | internal/plugins/account/store.go:355-370 | exactly the bindings due for a refresh, in the order of their users' ids |
| `BindingStore.BindingStore.RefreshToken` | internal/plugins/account/store.go:372-380 | the current credential, only if the user still has the identity asked about |
| `BindingStore.BindingStore.Save` | internal/plugins/account/store.go:509-540 | the main file becomes memory, its bindings sorted by user id, or stays as it is |
| `BindingStore.BindingStore.Load` | internal/plugins/account/store.go:434-493 | memory from the main file, or the first reason a record is refused |
| `BindingStore.BindingStore.LoadRecords` | internal/plugins/account/store.go:449-474 | the records one by one, refused at the first that is invalid, doubled, or whose credential does not open |
| `BindingStore.BindingStore.LoadTickets` | internal/plugins/account/store.go:475-479 | exactly the tickets still in date |
| `BindingStore.BindingStore.LoadTransactions` | internal/plugins/account/store.go:480-491 | exactly the transactions still in date that hold both secrets |
| `BindingStore.Files.WriteMain` | internal/plugins/account/store.go:625-652 | the file is replaced as a whole or not at all |
| `BindingStore.Files.WriteWal` | internal/plugins/account/store.go:544-556 | the one slot of the log is overwritten or left |
| `BindingStore.Files.RemoveWal` | internal/plugins/account/store.go:600-605 | the log is removed or left |
| `BindingStore.BindingStore.ApplyWal` | internal/plugins/account/store.go:558-598 | the logged binding laid over memory, saved and retired, with the disk states in between |
| `BindingStore.BindingStore.Seed` | internal/plugins/account/store.go:119-125 | the permission table seeded from all bindings, in whatever order they are visited |
| `BindingStore.BindingStore.Start` | internal/plugins/account/store.go:103-127 | start-up as a whole, every early return included |
| `BindingStore.BindingStore.Cleanup` | internal/plugins/account/store.go:495-507 | exactly the tickets and transactions past their expiry are dropped |
| `BindingStore.BindingStore.ClearWalMatching` | internal/plugins/account/store.go:607-623 | the log is removed only if its entry is this user's |
| `BindingStore.BindingStore.IdentityShared` | internal/plugins/account/store.go:586-593 | one pass finds out whether two users share an identity |
| `BindingStore.SortedIsListing` | internal/plugins/account/store.go:530 | sorting the records, in whatever order the map yields them, gives the one listing by user id |
| `BindingStore.NormalizedStrings` | internal/plugins/account/store.go:730-746 | the trimmed non-empty values, each once, sorted |
| `Canonical.NormalizePermissions` | internal/plugins/account/store.go:709-728 | the canonical names, each once, sorted, or a refusal of the list |
| `Canonical.NormalizeIdempotent` | internal/plugins/account/store.go:709-728 | a normalised list is accepted again unchanged and never longer than its source |
| `Canonical.StoredListAccepted` | internal/plugins/account/store.go:461-465 | a stored list passes every later normalisation, the binding store's and the authorization store's |
| `Canonical.NormalizedPermissions` | internal/auth/auth.go:288-307 | the same for the lists of the permission commands, which must not be empty |
| `Permissions.LocalPermissionExact` | internal/plugins/account/service.go:179-190 | exactly the well-formed `auth:` names behind a `magi:` prefix get through, changed in case and outer space only |
| `Permissions.ParseIsCanonical` | internal/auth/auth.go:54-57 | parsing lands on a canonical name, and exactly the canonical names parse to themselves |
| `Permissions.GrammarIsValid` | internal/auth/auth.go:54-57 | the permission grammar has what the proofs about stored lists ask of it |
| `Permissions.PatternIsSegments` | internal/auth/auth.go:49 | a name is well formed if and only if it splits at its colons into two or more segments, each a letter followed by letters, digits and the two signs |
| `Text.TrimSpaceExact` | internal/plugins/account/service.go:342-349 | trimming takes away the white space around a text, all of it and nothing else |
| `Sorting.StrLessExact` | internal/plugins/account/store.go:726 | the order of sorted names: the first difference decides, and without one the shorter name comes first |
| `Configured.SetupIsValid` | internal/plugins/account/service.go:143-150 | the configured mappings have what the proofs about the service ask of them: names are trimmed and cut to 256, and exactly the `magi:auth:` codes of well-formed names stand for one here |
| `AuthRuns.OwnerUnique` | internal/auth/auth.go:94-132 | in every interleaving of pairing, promotions, demotions, grants, crashes and restarts there is at most one owner in memory and on disk, and pairing is open exactly while there is none |
| `AuthRuns.StepKeeps` | internal/auth/auth.go:94-286 | every command, crash and restart keeps the stored sets canonical, one owner at most, pairing open exactly while there is none, and every guarded handler away from the owner |
| `AuthRuns.OwnerKeepsRole` | internal/plugins/perm/perm.go:162-188 | once bound the owner keeps the role through every step of the process |
| `AuthRuns.UncheckedPromotionStripsOwner` | internal/plugins/perm/perm.go:33-43 | without the owner check in front of the handlers there is a run in which an owner just bound loses the role and pairing is closed with no owner left; with it that is not a run |
| `AuthRuns.ReachableRoundTrip` | internal/auth/auth.go:412-460 | every reachable state survives a save and a restart but for its federated grants, unless chat id 0 holds a role |
| `AuthRuns.RestartsWithoutZero` | internal/auth/auth.go:94-132 | in a run in which pairing is never done on behalf of chat id 0, id 0 never holds anything, in memory or on file, and every start-up accepts the file |
| `AuthSpec.SaveLoadRoundTrip` | internal/auth/auth.go:412-460 | a saved state is accepted by loading if and only if id 0 holds nothing, and then roles and durable permissions come back exactly |
| `AuthSpec.BindZeroBreaksReload` | internal/auth/auth.go:118-132 | pairing on behalf of chat id 0 leaves a file the next start-up refuses |
| `AuthSpec.SeededExact` | internal/auth/auth.go:196-227 | after a replacement the table grants that user exactly the list until it expires, and every other user what it did |
| `AuthAnswers.BindAnswers` | internal/auth/auth.go:118-132 | pairing succeeds if and only if a code is open and given; then the chat is the owner, pairing closed, nobody else's role or permission changed, and a saved file starts up to just that |
| `AuthAnswers.SetRoleAnswers` | internal/auth/auth.go:230-245 | any of the three roles is given to any account but id 0, and nothing else changes; the answer tells whether it was saved |
| `AuthAnswers.GrantAnswers` | internal/auth/auth.go:248-266 | a list is accepted if and only if it is not empty, parses and is not for id 0; the account's own permissions are then the earlier and the named ones, and nothing else changes |
| `AuthAnswers.RevokeAnswers` | internal/auth/auth.go:269-286 | likewise, the earlier ones without the named |
| `AuthAnswers.ReplaceAnswers` | internal/auth/auth.go:196-219 | temporary permissions are refused only for an improper id or a name that does not parse; afterwards the table grants exactly the named ones until they expire |
| `AuthAnswers.HandlerAnswers` | internal/plugins/perm/perm.go:162-188 | a promotion or demotion that meets no other command gives the role to any account but the owner and id 0, and changes nobody else's |
| `AuthAnswers.LoadsExactly` | internal/auth/auth.go:412-451 | a file is loaded if and only if every entry in it can be used and no account is in it twice; the tables then hold what it says and nothing else |
| `AuthStore.AuthStore.Init` | internal/auth/auth.go:94-115 | tables from the file, and a pairing code exactly when no owner was found |
| `AuthStore.AuthStore.FindOwner` | internal/auth/auth.go:374-381 | whether some account is the owner |
| `AuthStore.AuthStore.Load` | internal/auth/auth.go:412-451 | the tables, or the first reason an entry is refused |
| `AuthStore.AuthStore.Snapshot` | internal/auth/auth.go:460-485 | one entry an account, by id, with its permissions sorted |
| `AuthStore.AuthStore.Save` | internal/auth/auth.go:460-510 | the file becomes that listing or stays as it is |
| `AuthStore.AuthStore.Bind` | internal/auth/auth.go:118-132 | the owner set and pairing closed for the right code, also when saving fails; nothing otherwise |
| `AuthStore.AuthStore.SetRole` | internal/auth/auth.go:230-245 | the role set, or the entry dropped for a plain user, and the file rewritten |
| `AuthStore.AuthStore.GrantPermissions` | internal/auth/auth.go:248-266 | the canonical names added to the account's durable permissions |
| `AuthStore.AuthStore.RevokePermissions` | internal/auth/auth.go:269-286 | the canonical names taken from them, an emptied account dropped |
| `AuthStore.AuthStore.ReplaceFederatedPermissions` | internal/auth/auth.go:196-219 | one user's temporary permissions replaced, or cleared for no names or a past expiry, or refused unchanged |
| `AuthStore.AuthStore.ClearFederatedPermissions` | internal/auth/auth.go:222-226 | afterwards, at any time, exactly the account's durable permissions are in force, whatever was granted before; every other account's are what they were |
| `AuthStore.AuthStore.HasPermission` | internal/auth/auth.go:148-168 | holds if and only if the name is well formed and the role is at least admin or the canonical name is in the account's list |
| `AuthStore.AuthStore.Permissions` | internal/auth/auth.go:171-193 | the permissions in force from both sources, each once, ascending |
| `AuthStore.AuthStore.Members` | internal/auth/auth.go:331-372 | every account with a role or a permission in force, once, highest role first and then by id, with the same list |
| `Debounce.FailExactly` | internal/playground/scheduler.go:115-121 | the alert fires exactly at the first check of a run of failures whose place in the run reaches that check's threshold, and at the first one when the threshold is not positive |
| `Debounce.RecoverExactly` | internal/playground/scheduler.go:123-129 | recovery fires exactly at the first success after a run in which the alert fired |
| `Debounce.Alternate` | internal/playground/scheduler.go:96-130 | alerts and recoveries alternate strictly, alert first |
| `Debounce.MachineIsHistory` | internal/playground/scheduler.go:96-130 | the two state fields are the length of the current run and whether it alerted |
| `Debounce.CountedExactly` | internal/playground/scheduler.go:96-113 | exactly the checks made with assertions count, in their order |
| `Debounce.Scheduler.Classify` | internal/playground/scheduler.go:96-130 | the event is a function of that group's own checks since it was reset; checks without assertions are reported and leave no trace |
| `Debounce.Scheduler.Delete` | internal/playground/playground.go:117-127 | deleting a group forgets its history and no other |
| `Debounce.Scheduler.Init` | internal/playground/playground.go:64-72 | start-up forgets every history |
| `Vars.NamesExact` | internal/playground/vars.go:12 | the scan finds exactly the names of the placeholders in the text |
| `Vars.MatchesApart` | internal/playground/vars.go:12 | placeholders never overlap |
| `Vars.TokensCoverInput` | internal/playground/vars.go:106-114 | literal and placeholder segments put together again are the input |
| `Vars.FindAll` | internal/playground/vars.go:131 | find-all returns the names of the scan, in order |
| `Vars.ReplaceAll` | internal/playground/vars.go:106-114 | replace-all substitutes over the segments of the same scan, so that a value is never rescanned |
| `Vars.ExpandUnresolved` | internal/playground/vars.go:106-114 | text none of whose names resolves is left as it is |
| `Vars.VarStore.MissingVars` | internal/playground/vars.go:123-144 | exactly the unresolved names some request field mentions, each once, sorted |
| `Vars.VarStore.NothingMissing` | internal/playground/exec.go:25-41 | with nothing missing, every placeholder of every field that is sent is replaced by its value and nothing else changes |
| `Vars.VarStore.Prepare` | internal/playground/exec.go:25-58 | the request is made of exactly the expanded fields |
| `Vars.JoinedBySlash` | internal/playground/exec.go:54-59 | base and endpoint are joined by exactly one slash, whichever of them brought some; without an endpoint the base is used as it is |
| `Vars.VarStore.ResolvesExactly` | internal/playground/vars.go:84-99 | an argument decides, then the table, then the environment unless it is empty there |
| `VarTable.LastWriteDecides` | internal/playground/vars.go:21-50 | after any changes, failed saves and restarts, the file holds a variable's last written value if and only if that write or a later one in the same process was saved; the table holds it until a restart, and from then on what the file held |
| `VarTable.SetSurvivesRestart` | internal/playground/vars.go:21-42 | a value set and saved is the value after the next start-up, whatever other variables were changed in between |
| `VarTable.UnwrittenStays` | internal/playground/vars.go:21-50 | a variable nothing writes keeps the value table and file agreed on |
| `Vars.VarStore.Names` | internal/playground/vars.go:53-62 | all variable names, sorted |
| `BookOverlap.OverlappingAgrees` | internal/cloudflare/service.go:90-185 | in every interleaving of the steps of any number of commands, whatever fails, the record of every hostname that no two commands with different aims have been on at once agrees with Cloudflare as soon as every change made there is recorded; unused records name no worker, and every worker's credential exists |
| `BookOverlap.ApartAgrees` | internal/cloudflare/service.go:90-185 | so it does for every hostname for which no two commands that can come to be on it, with different aims, were ever under way at once, whenever none is |
| `BookClashes.ClashesDisagree` | internal/cloudflare/service.go:128-144 | for each of four overlaps -- two forced binds, an unbind within a bind, an unbind or a bind within an import -- a run from an empty book with no failing call after which nothing is under way and the record names a worker the hostname is not attached to |
| `BookSolo.BindAlone` | internal/cloudflare/service.go:90-146 | the steps of a bind that meets no other command add up to what binding does in one piece, whichever of its calls fail |
| `BookSolo.UnbindAlone` | internal/cloudflare/service.go:150-185 | so do those of an unbind |
| `BookSolo.ImportAlone` | internal/cloudflare/worker.go:56-93 | so do those of an import, in whatever order the hostnames are listed |
| `BookRuns.StepKeeps` | internal/cloudflare/service.go:13-185 | every step of every command keeps what each command under way relies on: a hostname it is on is attached as it aims |
| `BookSpec.BookAgrees` | internal/cloudflare/service.go:90-185 | in every run of whole commands, one after another, a record naming a worker is attached to it at Cloudflare, an unused record names none, and every worker's credential exists |
| `BookSpec.StepAgrees` | internal/cloudflare/service.go:13-185 | each command, whichever of its API calls and saves fail, keeps that agreement |
| `BookSpec.ImportTwice` | internal/cloudflare/worker.go:56-93 | importing again changes nothing if and only if the first import did not fail to save a record it added |
| `BookSpec.SyntaxIsValid` | internal/cloudflare/store.go:66-67 | the accepted names meet what the proofs ask of them: none is empty, and the category used by default is one |
| `BookSpec.HostExactly` | internal/cloudflare/store.go:67 | a hostname is accepted if and only if it is one or more labels, each with its dot, and a top-level name |
| `BookAnswers.BindAnswers` | internal/cloudflare/service.go:90-146 | a bind succeeds if and only if worker and credential are known, the hostname is proper, the calls succeed and nobody else has the hostname or force is given; it is then attached and on record so, and all other records are as they were; who has it is named exactly when only force is missing |
| `BookAnswers.BindPicks` | internal/cloudflare/service.go:92-105 | without a hostname the first unused one of the worker's category is bound, if there is one |
| `BookAnswers.UnbindAnswers` | internal/cloudflare/service.go:150-185 | an unbind succeeds if and only if the record names a known worker, the hostname is attached and the calls succeed; it is then detached and unused |
| `BookAnswers.ImportAnswers` | internal/cloudflare/worker.go:56-93 | an import succeeds if and only if worker and credential are known and the list can be had; it leaves every attached hostname in use by the worker, but for improper new ones and those whose addition was not saved, and every other record as it was |
| `BookAnswers.CredAnswers` | internal/cloudflare/store.go:120-175 | when credentials are added and removed, and that nothing else changes |
| `BookAnswers.WorkerAnswers` | internal/cloudflare/store.go:180-247 | the same for workers and their categories |
| `BookAnswers.DomainAnswers` | internal/cloudflare/store.go:252-337 | the same for hostname records and their fields |
| `BookAnswers.EditExactly` | internal/cloudflare/service.go:13-62 | a field name and a value ask for an edit if and only if the name is one of that field's and the value fits it, so that no two edits are asked for at once |
| `RecordBook.RecordBook.BindDomain` | internal/cloudflare/service.go:90-146 | attachment and record after a bind, or the first reason for refusal with nothing changed |
| `RecordBook.RecordBook.UnbindDomain` | internal/cloudflare/service.go:150-185 | the attachment gone and the record unused, or the reason with nothing changed |
| `RecordBook.RecordBook.ImportWorkerDomains` | internal/cloudflare/worker.go:56-93 | every hostname the worker serves recorded as its own, and which were added and which updated |
| `RecordBook.RecordBook.ImportHost` | internal/cloudflare/worker.go:70-91 | one hostname added, re-pointed or skipped, and what is reported of it |
| `RecordBook.RecordBook.AttachAndRecord` | internal/cloudflare/service.go:106-145 | the hostname attached and recorded, or nothing changed and the reason |
| `RecordBook.RecordBook.SetDomainField` | internal/cloudflare/service.go:13-51 | one field edited, with the worker dropped when the record becomes unused, or nothing |
| `RecordBook.RecordBook.ListDomains` | internal/cloudflare/store.go:282-305 | each record of the category and status, an empty filter letting all through, once, by category and then by name |
| `RecordBook.RecordBook.NextUnused` | internal/cloudflare/store.go:307-312 | the first unused hostname in that order, or none exactly when no record of the category is unused |
| `RecordBook.RecordBook.DelCred` | internal/cloudflare/store.go:162-175 | refused exactly while some worker uses the credential |
| `RecordBook.RecordBook.AddCred` | internal/cloudflare/store.go:120-134 | registered under a new valid name with a non-blank account and token |
| `RecordBook.RecordBook.AddWorker` | internal/cloudflare/store.go:180-197 | registered only under an existing credential |
| `RecordBook.RecordBook.SetWorkerCategory` | internal/cloudflare/store.go:225-236 | a worker's category replaced by a valid name |
| `RecordBook.RecordBook.DelWorker` | internal/cloudflare/store.go:239-247 | the worker's record gone, the hostnames' left alone |
| `RecordBook.RecordBook.AddDomain` | internal/cloudflare/store.go:252-266 | a new record is unused and names no worker, also when it cannot be saved |
| `RecordBook.RecordBook.DelDomain` | internal/cloudflare/store.go:329-337 | the hostname's record gone, its attachment left alone |
| `Bundle.BundleIsDeterministic` | internal/bundle/bundle.go:93-144 | two runs that add the same messages after their start, in any two orders and among any other chats' events, end in the same bundle |
| `Bundle.ArrivalOrderIsIrrelevant` | internal/bundle/bundle.go:130-138 | messages with distinct ids have one chat order |
| `Bundle.CollectedSinceStart` | internal/bundle/bundle.go:79-99 | a chat holds exactly the messages added to it since its start |
| `Bundle.CollectingExactly` | internal/bundle/bundle.go:79-166 | read off the whole history, a chat is collecting if and only if some start of it is not left yet, and holds exactly what was added to it since |
| `Bundle.Collector.End` | internal/bundle/bundle.go:119-144 | everything added since the start, sorted by time and id, is the finished bundle; none added, or no start not left yet, none is finished |
| `Bundle.Collector.Start` | internal/bundle/bundle.go:79-87 | refused if and only if an earlier start of the chat is not left yet |
| `Bundle.Collector.Add` | internal/bundle/bundle.go:93-99 | appended while collecting, ignored otherwise |
| `Bundle.Collector.Cancel` | internal/bundle/bundle.go:147-155 | the collection dropped, and whether some start was not left yet |
| `Bundle.Collector.Status` | internal/bundle/bundle.go:159-166 | whether some start of the chat is not left yet, and how many messages were added to it since |

## Left out

- HTTP handlers, cookies, rendering and the Telegram commands around the modelled operations: input, output and presentation.
- The OpenID Connect wire client (`internal/plugins/account/client.go`): only the contract of its results; a client error after the provider already rotated the credential is outside the model.
- Cryptography, randomness and encodings: an ideal cipher, an injective digest, tokens never handed out before; sealing a login's secrets and drawing random bytes do not fail.
- JSON and the file system: files are values, replaced atomically or not at all. The main file's tickets and transactions are maps, without the order they are written in.
- A wall clock that is set back: it never runs backwards from one step to the next. Within one start-up the permission table is seeded at a single instant.
- Read errors of the authorization file, which end the process.
- Plaintext transaction secrets and bindings without a next refresh time in older files: easy cases of loading.
- 64-bit wrap-around of times and ids: times are unbounded integers.
- The sweep's channel, its four workers and its try-lock: a sweep is a goroutine for each item, any number of them at once, with an arbitrary snapshot.
- Whether the provider carries a revocation out: a credential counts as revoked once that was asked for. The source reports a failed request and does not repeat it.
- The error values of the service's operations: the model follows what is stored, returned by the provider and revoked, not which error is reported.
- StoreRuns.RecoveryNeverRejects: the issuer and client id are those of the run; a start-up under a changed configuration is refused and is not part of any run.
- Role names, the list of ids by role and the log lines of the authorization store: they would only add easy members.
- Cron registration, network execution, assertions and templates of the playground.
- BookSpec.BookAgrees: commands run one after another there; `BookOverlap.OverlappingAgrees` states what holds when they overlap.
- Several Cloudflare accounts, attachments changed by other means, and more than one attachment of a hostname.
- The Cloudflare transport, zones and environments, the listings of credentials and workers, and the record file: a restart after a failed save is outside the model.
- The variable table before start-up has given it a path, and a variable file that cannot be read, which ends the process.
- Media files, ids and the file of finished bundles, and what start-up resets: easy or external.
