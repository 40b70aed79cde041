# Verified model of the Kyrg Studio back end and its clients

Kyrg Studio turns uploaded media into copy analyses and adapted scripts. Its users hold refresh tokens that are rotated on
every use, submit jobs that a queue hands to workers, and talk to it through a browser and a command line. This project
models the parts of it in which several parties act on shared state, and proves what they promise, for every input and
every interleaving. `dafny verify dfyconfig.toml` checks all of it.

Tables are maps of rows with unique columns. Store transactions are functions from tables to tables, and classes whose
methods update the same tables in place are proved equal to them. Protocols are machines whose steps are one store, storage
or queue call each; sequential services are proved to do what their actor does in the machine.

| files | subject |
|---|---|
| `SessionTable`, `SessionFamilies`, `SessionSafety` | refresh-token families: the chain invariant, the abstract machine they refine, and safety over runs |
| `RotationRace` | concurrent rotations statement by statement, under the row lock |
| `AuthDb`, `AuthStore`, `AuthService` | the transactions of authentication, the store that performs them, and refresh and logout |
| `CliClient`, `CliSessionSafety` | the session holder of the CLI, and client and server together |
| `RefreshRounds`, `RefreshCoordinator` | the single-flight refresh of the browser |
| `GoogleLogin`, `GoogleSignIn` | Google sign-ins, interleaved and sequential |
| `PasswordResets`, `EmailVerification`, `EmailLinks` | one-time tokens |
| `AccessTokens`, `Decimal` | access tokens, their claims and lifetimes |
| `JobTable`, `JobStore` | the jobs table, its guarded updates and its invariant |
| `JobProtocol`, `JobSafety`, `JobTheorems`, `JobHandover`, `JobResults`, `JobOutcomes`, `JobServices` | submission, confirmation and execution of jobs, interleaved and sequential |
| `JobListing`, `GrowingList` | the paginated job list, of a fixed and of a growing table |
| `StoragePaths`, `S3Storage` | storage keys, and deleting everything under a prefix |
| `Workspaces`, `Materializer` | temporary workspaces of workers |
| `BillingMaps`, `BillingStore`, `UniqueTable` | Stripe customers, subscriptions and webhook events |
| `JsonValues`, `JobOutputs`, `JobOutputTheorems`, `PublicResults`, `ErrorDetails` | the whitelists between workflow and user |

## What is assumed

- A store method that runs in one transaction is one step. For the row of a presented token `RotationRace` proves this from
  the row lock of src/app/store/users.py:340, statement by statement; that lock covers no other row, so family-wide and
  user-wide revocations are claimed at the grain of transactions only.
- Family identifiers drawn at login name no family yet, fresh tokens have digests never stored before where a theorem says
  so, and digests do not collide: a token is written as its digest.
- Every store, storage, queue and workflow call of the job protocol may fail before or after it took effect. Queue messages
  may be delivered any number of times, at any time, also before they are sent.
- Files of the object store disappear only through the deletions modelled here.
- Clock readings are inputs. That purging reset tokens never shows in an answer (`PasswordResets.PurgeIsInvisible`) needs
  them not to go back; `PasswordResets.PurgeVisibleExactly` says what happens otherwise.

## Where code and documentation differ

- `create_job` documents `run_id` as an idempotency key for repeated requests (src/app/store/jobs.py:63-68). Repeating a
  submission whose job is uploaded or running marks that job failed (src/app/pipeline/service.py:308-318):
  `JobOutcomes.RetryOutcome` says exactly when a repetition keeps the row. Unless a call fails first it writes the
  input file again; under the prefix of a job whose files were deleted, that file stays for good:
  `JobTheorems.LeftoversStay`.
- `confirm_presigned_upload` promises that a retry returns the committed state (src/app/pipeline/service.py:158-161). It
  does, also when the first confirmation committed and then saw an error; the job is then reported as uploaded
  (`JobTheorems.RetriedConfirmationSucceeds`) and never enqueued. A confirmed job reaches the queue exactly when the winner
  of its upload learned that it won: `JobHandover.UploadsAreHandedOverExactly`, `JobHandover.WinnersHandOverExactly`.
- A repeated `prepare_presigned_upload` whose presigning fails marks an uploaded or running job failed
  (src/app/pipeline/service.py:133-141): `JobOutcomes.PrepareOutcome`.
- `refresh` promises to rotate a token and issue a new pair (src/app/auth/service.py:319-326), and may fail to build the
  pair after the commit (src/app/auth/service.py:353-356), which costs the session: `AuthService.RefreshAnsweredExactly` says
  exactly when, and `AuthService.SlowSigningLosesTheToken` gives an input, a refresh TTL of 901 seconds with an access TTL of
  900 and a second between reading the clock and signing.
- The CLI keeps working when its session file cannot be written, but the next process then presents a spent token and
  kills the family: `CliSessionSafety.RestartHoldsLiveIffSaved`.
- Sending a verification email revokes older tokens (src/app/auth/email_verification.py:52-58), but in a transaction of its
  own. The new token is the only pending one exactly when none created in between is still pending:
  `EmailVerification.OnlyPendingExactly`, with `EmailVerification.InterleavedSendsLeaveTwoPending` an instance.
- `_validate_segment` is meant to keep storage segments apart (src/app/storage/paths.py:27-42) and accepts `a/`:
  `StoragePaths.TrailingSlashIsAccepted`. `StoragePaths.CoveredExactly` says which segments are affected; those without a
  separator, such as rendered job ids, are not: `StoragePaths.SegmentsSeparate`.
- The refresh coordinator clears its field in `finally` (frontend/src/shared/api/refresh-coordinator.ts:27-29). A handler
  that throws before returning a promise leaves it holding a rejected one: `RefreshRounds.StuckExactly`.

## Model

| member | source | states |
|---|---|---|
| `SessionTable.RevokeKeepsChained` | src/app/store/users.py:551-579 | any bulk revocation, of one row, a user or a family, keeps every family one chain of rows in key order with one owner, each row pointing at the next and all but the last revoked |
| `SessionTable.CreateKeepsChained` | src/app/store/users.py:236-291 | a new session with a fresh digest and family keeps the table chained |
| `SessionTable.RotateKeepsChained` | src/app/store/users.py:382-434 | spending an unspent row and appending its replacement keeps the table chained |
| `SessionTable.StepKeepsChained` | src/app/auth/transactional_store.py:593-675 | every transaction on sessions keeps the table chained |
| `SessionTable.RunKeepsChained` | src/app/auth/transactional_store.py:593-675 | every run of transactions in which logins draw fresh families keeps the table chained |
| `SessionTable.ChainFacts` | src/app/store/users.py:408-428 | in a chained table a family has at most one unrevoked row, which is its last, and no row replaces two others |
| `SessionTable.RevokingTheLiveRow` | src/app/auth/transactional_store.py:641-661 | revoking only the live row, as an expired token does, is the same as revoking its family |
| `SessionFamilies.StartRefines` | src/app/store/users.py:225-234 | the empty table is the abstract machine without families |
| `SessionFamilies.RevocationRefines` | src/app/store/users.py:497-579 | revoking a user or a family kills exactly the families it covers |
| `SessionFamilies.CreationRefines` | src/app/store/users.py:236-291 | creating a session adds one live family, or fails exactly when the digest was issued before or the user is missing |
| `SessionFamilies.LiveIffUnspent` | src/app/auth/transactional_store.py:633-637 | a presented token is the live token of its family exactly when its row is neither revoked nor replaced |
| `SessionFamilies.RotationRefines` | src/app/store/users.py:382-434 | a rotation replaces the live token of one family and nothing else |
| `SessionFamilies.RefreshRefines` | src/app/auth/transactional_store.py:618-675 | a refresh of the table has the outcome and effect of a refresh of the machine, in all six cases |
| `SessionFamilies.StepRefines` | src/app/auth/transactional_store.py:593-675 | one transaction of the table is one step of the machine, with the same outcome |
| `SessionFamilies.RunRefines` | src/app/auth/transactional_store.py:593-675 | any run of the table is a run of the machine, in which a family is one live token with an expiry, or dead |
| `SessionSafety.StepIsMonotone` | src/app/store/users.py:408-428 | no transaction removes a row, changes its digest, family or owner, or makes a spent row unspent |
| `SessionSafety.SpentTokenKills` | src/app/auth/transactional_store.py:633-641 | a spent token is answered as reused and its family has no live row afterwards |
| `SessionSafety.EndingRefresh` | src/app/auth/transactional_store.py:633-661 | a refresh refused as reused, expired or of a missing user revokes the whole family |
| `SessionSafety.RevocationKills` | src/app/store/users.py:497-579 | every way to end a family leaves it without a live row |
| `SessionSafety.DeadFamilyStep` | src/app/auth/transactional_store.py:630-641 | no single transaction rotates a token of a dead family or revives it |
| `SessionSafety.DeadForEver` | src/app/auth/transactional_store.py:630-641 | no later run of transactions rotates a token of a dead family or revives it |
| `SessionSafety.SpentForEver` | src/app/auth/transactional_store.py:633-641 | every later presentation of a spent token, in any run, is answered as reused |
| `SessionSafety.ReplayIsDetected` | src/app/auth/transactional_store.py:630-675 | when a token that was rotated is presented again, that is answered as reused and nothing of the family rotates from then on |
| `RotationRace.MoveKeepsInvariant` | src/app/store/users.py:318-351 | every statement of any rotation, and every other transaction, leaves each locked row as its rotation read it, and drawn keys and digests unique |
| `RotationRace.AtMostOneCommits` | src/app/store/users.py:225-232 | statement by statement, of any number of concurrent rotations of one row at most one commits, and the row is spent then |
| `RotationRace.GuardsNeverFail` | src/app/store/users.py:385-426 | with the lock held, neither the check after it nor the guard of the UPDATE ever fails |
| `RotationRace.CommitsAreAtomic` | src/app/auth/transactional_store.py:618-675 | a rotation that commits has the table and outcome of the whole refresh transaction done at the moment of its commit |
| `AuthStore.Store.RevokeMatching` | src/app/store/users.py:551-579 | the bulk UPDATE revokes exactly the selected unrevoked rows and counts them |
| `AuthStore.Store.CreateSession` | src/app/store/users.py:236-291 | inserts one row, or rolls back exactly on a known digest or a missing user |
| `AuthStore.Store.RotateSession` | src/app/store/users.py:353-450 | succeeds exactly for an unspent row and a fresh digest; otherwise the savepoint leaves the table as it was |
| `AuthStore.Store.GetSessionByTokenHash` | src/app/store/users.py:316-351 | finds the row of a digest exactly when there is one |
| `AuthStore.Store.RotateSessionByTokenHash` | src/app/auth/transactional_store.py:593-675 | new table and answer are those of the refresh transaction the session theorems are about |
| `AuthStore.Store.CreateUserWithSession` | src/app/auth/transactional_store.py:727-754 | user and first session are both inserted, or neither |
| `AuthService.Service.Refresh` | src/app/auth/service.py:319-356 | the table that is committed and the reply are those of the rotation, with a second transaction for a disabled account and a pair of tokens that may fail to be built; errors do not undo what was committed |
| `AuthService.Service.Answer` | src/app/auth/service.py:337-356 | one reply for every refused outcome and another for a failing store; only a disabled account changes the table further |
| `AuthService.Service.Logout` | src/app/auth/service.py:358-373 | revokes the family of a known token and changes nothing for an unknown one |
| `AuthService.RefusalStaysCommitted` | src/app/auth/service.py:337-338 | the caller of a replayed token sees only an error, yet nothing of the family ever rotates afterwards |
| `AuthService.LogoutIsFinal` | src/app/auth/service.py:358-373 | after a logout no token of the family ever rotates |
| `AuthService.DisabledAccountIsCutOff` | src/app/auth/service.py:345-351 | a disabled account that refreshes is left without a live session |
| `AuthService.RepliesExactly` | src/app/auth/service.py:337-356 | by the columns of the presented row: invalid exactly when it is spent or expired or its user is missing; a store error exactly when it may be rotated and the new digest exists; account disabled exactly when it may be rotated, the digest is new and the user is disabled; tokens otherwise |
| `AuthService.UnknownTokenIsInvalid` | src/app/auth/service.py:337-338 | a digest no row bears is answered as invalid, and the table stays as it was |
| `AuthService.RefreshLeaves` | src/app/auth/transactional_store.py:618-675 | the table row by row: an invalid token ends its family and nothing else, a taken digest changes nothing, and otherwise the old row is spent, the new row has the given digest and expiry, and a disabled user's rows are revoked |
| `AuthService.RefreshAnsweredExactly` | src/app/auth/service.py:319-356 | a refresh with an unspent token gets its tokens exactly when it is timely and its pair is built promptly; timely but not prompt, it fails after the commit; and the token can be used again exactly when the rotation hit an existing digest |
| `AuthService.SlowSigningLosesTheToken` | src/app/auth/service.py:460-475 | an input: with TTLs one second apart, signing one second late answers with an error and leaves the token spent |
| `CliClient.KyrgApiClient.StoreAuthentication` | src/cli/api_client.py:368-405 | a reply is adopted whole or not at all; memory is updated before the file, and a failing save is reported |
| `CliClient.KyrgApiClient.RefreshSession` | src/cli/api_client.py:242-259 | session and session file become what the reply yields and the disk allows; an authentication error logs out, network and other API errors keep both |
| `CliClient.KyrgApiClient.RequestJson` | src/cli/api_client.py:261-295 | at most one refresh and one retry, exactly after an authentication error |
| `CliSessionSafety.TimelyRotates` | src/app/auth/transactional_store.py:650-673 | a client holding the live token before expiry gets new tokens |
| `CliSessionSafety.HoldsLiveIffDelivered` | src/cli/api_client.py:368-405 | after a rotation the client holds the live token exactly when the reply with its tokens and cookie reached it; otherwise it holds a spent one |
| `CliSessionSafety.LostReplyEndsInReuse` | src/cli/api_client.py:242-259 | after a lost reply every later refresh of the client is answered as reused |
| `CliSessionSafety.OthersLeaveItLive` | src/app/auth/transactional_store.py:593-675 | transactions of others that spare the family leave the client holding the live token |
| `CliSessionSafety.RefreshLeavesClient` | src/cli/api_client.py:242-259 | what memory and file hold after a refresh, token by token, for every reply and every way it arrives: adopted, logged out on 401 and 403, or as before |
| `CliSessionSafety.SuccessiveRefreshesRotate` | src/cli/api_client.py:242-259 | within one process, whether its file starts up to date or not and can be written or not, any number of refreshes before expiry and revocation, mixed with transactions of others, all return new tokens, and the client ends up holding the live one |
| `CliSessionSafety.HoldsLiveIffNothingLost` | src/cli/api_client.py:242-259 | over any run of refreshes, restarts and transactions of others, the client ends up holding the live token exactly when every reply arrived with its tokens and no process started before the last of them was saved; once something is lost, memory and file hold spent tokens only |
| `CliSessionSafety.RestartHoldsLiveIffSaved` | src/cli/api_client.py:141 | the process started after a timely refresh holds the live token exactly when the reply arrived and was saved; otherwise its first refresh is refused and kills the family |
| `CliSessionSafety.StaleForEver` | src/cli/api_client.py:242-259 | a client left with spent tokens is refused at every refresh, in this process and all later ones |
| `GoogleLogin.CreationIsFaithful` | src/app/auth/transactional_store.py:727-754 | a creation that succeeds makes a user of the verified subject, with a session, where there was none of that subject |
| `GoogleLogin.OpeningIsFaithful` | src/app/auth/service.py:394-410 | a login of an existing user opens a session of that user |
| `GoogleLogin.AdvanceIsFaithful` | src/app/auth/service.py:272-317 | one store call of a login keeps users unique, keeps every Google user in possession of a session, and settles only on a user of the verified subject |
| `GoogleLogin.MoveKeepsInvariant` | src/app/auth/service.py:272-317 | any step of any login, or of the rest of the system, keeps users unique, Google users in possession of a session, and at most one user created per subject |
| `GoogleLogin.LoginsAgree` | src/app/auth/service.py:412-440 | over every interleaving at most one user is created per subject, every success returns that user, and no Google user is without a session |
| `GoogleLogin.CleanStart` | src/app/store/users.py:34-90 | tables without Google users are consistent, so that the claims about logins hold from there |
| `GoogleSignIn.ReturningLogin` | src/app/auth/service.py:276-278 | a login whose subject has a user, from either lookup: disabled exactly when the user is, with nothing changed; logged in exactly when enabled, nothing fails and the token is new, with the session column by column |
| `GoogleSignIn.FirstLogin` | src/app/auth/service.py:280-317 | a login whose subject has no user: to be linked exactly when its email is taken; otherwise user and session are created column by column, and it succeeds exactly when nothing fails and the token is new |
| `GoogleSignIn.ConflictOutcome` | src/app/auth/service.py:412-440 | a conflict over a subject that has no user changes nothing, and asks for linking exactly when the email is taken |
| `GoogleSignIn.DisabledStaysOut` | src/app/auth/service.py:276-278 | over every interleaving, while a user is disabled no login gets in as that user |
| `GoogleSignIn.SignIn.LoginWithGoogle` | src/app/auth/service.py:272-317 | the sequential login does, call by call, what its login in the machine does when left alone, including lookups that fail and writes that fail before or after the commit |
| `GoogleSignIn.SignIn.CreateUser` | src/app/auth/service.py:290-317 | a user insert that fails leads to the conflict resolution; any other failure of the transaction does not |
| `GoogleSignIn.SignIn.ResolveCreationConflict` | src/app/auth/service.py:412-440 | looks for a user of the subject, then of the email, and never links by email |
| `GoogleSignIn.SignIn.Accept` | src/app/auth/service.py:276-278 | a user that was found gets a session unless the account is disabled |
| `GoogleSignIn.SignIn.OpenSession` | src/app/auth/service.py:394-410 | opens a session of that user, or fails |
| `AuthStore.Store.GetUserByEmail` | src/app/store/users.py:107-123 | finds the user of an email exactly when there is one |
| `AuthStore.Store.GetUserByGoogleSub` | src/app/store/users.py:125-145 | finds the user of a subject exactly when there is one |
| `PasswordResets.RunKeepsSound` | src/app/auth/transactional_store.py:337-348 | over every run a user has at most one pending reset token and digests stay unique |
| `PasswordResets.RequestEffects` | src/app/auth/transactional_store.py:333-350 | a request succeeds exactly before its expiry, for an existing user and a new digest; the new row holds what was asked for, the user's pending tokens are used, and nothing else changes; a failed request changes nothing |
| `PasswordResets.RequestThenReset` | src/app/auth/transactional_store.py:343-347 | a requested token resets the password exactly before the expiry it was requested with |
| `PasswordResets.ResetEffects` | src/app/auth/transactional_store.py:394-406 | a reset succeeds exactly for a pending, unexpired token of an existing user; it then installs the hash and revokes that user's sessions and no other's, otherwise nothing changes |
| `PasswordResets.ResetEndsOldFamilies` | src/app/auth/transactional_store.py:403-405 | after a reset no family the user had before ever rotates again |
| `PasswordResets.UsedForEver` | src/app/store/password_resets.py:102-135 | a used token is refused in every later run |
| `PasswordResets.SingleUseWithoutPurge` | src/app/store/password_resets.py:102-135 | without purges a token is accepted at most once |
| `PasswordResets.PurgeStep` | src/app/store/password_resets.py:165-185 | one transaction answers the same on tables that differ by purged rows, and leaves them differing so |
| `PasswordResets.PurgeIsInvisible` | src/app/store/password_resets.py:165-185 | with clocks that do not go back and fresh digests, runs with and without purges give the same answers, accounts and sessions |
| `PasswordResets.SingleUse` | src/app/store/password_resets.py:102-135 | over every run, whatever its clocks and purges, a token is accepted at most once |
| `PasswordResets.StartIsSound` | src/app/store/password_resets.py:30-61 | the empty token table meets what the theorems about runs start from |
| `PasswordResets.PurgeVisibleExactly` | src/app/store/password_resets.py:165-185 | a purge changes the answer to a reset exactly when the token is pending and expires after the reset's clock but not after the purge's |
| `AuthStore.Store.CreatePasswordResetToken` | src/app/auth/transactional_store.py:304-350 | old pending tokens are revoked and the new one inserted, or neither |
| `AuthStore.Store.ConsumeToken` | src/app/store/password_resets.py:90-135 | the guarded UPDATE consumes exactly a pending, unexpired token |
| `AuthStore.Store.ResetPasswordWithToken` | src/app/auth/transactional_store.py:371-408 | the three tables after the call are those of the reset transaction |
| `AuthStore.Store.DeleteExpiredPasswordResetTokens` | src/app/auth/transactional_store.py:410-424 | deletes exactly the tokens that have expired, and counts them |
| `EmailVerification.AdvanceIsMonotone` | src/app/store/email_verifications.py:70-134 | no step removes a verification token, changes its digest or makes a used one pending |
| `EmailVerification.VerifiedAtMostOnce` | src/app/auth/email_verification.py:80-112 | over every interleaving of verifiers and senders at most one verifier wins a token, namely one that presented its digest |
| `EmailVerification.VerifiedOnlyByWinners` | src/app/auth/email_verification.py:80-112 | over every interleaving an account becomes verified only if some verifier found a token of that account before its expiry and then won that token |
| `EmailVerification.VerifyOutcome` | src/app/auth/email_verification.py:80-112 | an undisturbed verification, by the faults of its three calls: it succeeds exactly for a pending token, unexpired when looked up, if nothing fails; the token is used and its account verified exactly as far as the calls took effect |
| `EmailVerification.SendOutcome` | src/app/auth/email_verification.py:36-66 | an undisturbed send, by the faults of its three calls: which tokens end used, and the new token with its digest and expiry |
| `EmailVerification.OnlyPendingExactly` | src/app/auth/email_verification.py:52-66 | whatever is interleaved between its revocation and its creation, a send leaves its token as the only pending one exactly when no token created in between is still pending |
| `EmailVerification.InterleavedSendsLeaveTwoPending` | src/app/auth/email_verification.py:52-66 | an instance: two interleaved sends leave two pending tokens, since revoking and creating are separate transactions |
| `EmailLinks.EmailVerificationService.VerifyEmailToken` | src/app/auth/email_verification.py:80-112 | the sequential verification does what a verifier of the machine does, whichever of its three transactions fails, before or after its commit |
| `EmailLinks.EmailVerificationService.SendVerificationEmail` | src/app/auth/email_verification.py:36-66 | the sequential send does what a sender does, whichever of its two transactions or its message fails, before or after taking effect |
| `EmailLinks.EmailVerificationService.MarkTokenUsed` | src/app/store/email_verifications.py:70-106 | marks exactly a pending token |
| `EmailLinks.EmailVerificationService.RevokePendingTokensForUser` | src/app/store/email_verifications.py:108-134 | marks exactly the user's pending tokens, and counts them |
| `JobTable.TransitionKeepsInvariant` | src/app/store/jobs.py:377-429 | a guarded UPDATE wins exactly in an accepted status; then only its own row changes, forward, to the status and values asked for, and columns keep agreeing with the status; a lost one changes nothing |
| `JobTable.CreationKeepsInvariant` | src/app/store/jobs.py:63-127 | creating a job adds one pending row or changes nothing, and run_ids stay unique |
| `JobOutcomes.CreateExactly` | src/app/store/jobs.py:63-127 | a job is created, with the columns asked for, exactly for an existing user and a free run_id; otherwise nothing changes, and the answer tells the same user's job, another user's, or a refusal |
| `JobTable.RunKeepsInvariant` | src/app/store/jobs.py:129-244 | over every run file, start, finish, output and error columns are set exactly as the status demands, are written once, and nothing happens to an ended job |
| `JobTable.AtMostThreeChanges` | src/app/store/jobs.py:129-244 | a job changes status at most once for every rank it still has to climb, three times in all |
| `JobTable.RunIdNamesOneJob` | src/app/store/jobs.py:98-111 | once a run_id names a job, every later creation with it answers with that job, or refuses another user, and changes nothing |
| `JobStore.Store.GetJobByRunId` | src/app/store/jobs.py:279-299 | finds the job of a run_id exactly when there is one |
| `JobStore.Store.CreateJob` | src/app/store/jobs.py:63-127 | table and answer are those of the create transaction |
| `JobStore.Store.TransitionJob` | src/app/store/jobs.py:377-429 | table and answer are those of the guarded UPDATE |
| `JobSafety.WriteMoves` | src/app/pipeline/transactional_job_store.py:66-79 | a transition in its own transaction, failing before or after its commit, counts in the log exactly when it matched |
| `JobSafety.CreateMoves` | src/app/pipeline/transactional_job_store.py:54-58 | creating a job, failing before or after its commit, touches no other job and leads on only to a job that exists |
| `JobSafety.AdvanceMoves` | src/app/pipeline/service.py:308-315 | one call of any actor keeps the log counting exactly the columns that are set, for every job, and calls queue, workflow and deletion only from the step that is entitled to |
| `JobSafety.AdvanceStores` | src/app/worker/runner.py:168-178 | files disappear only in a deletion, and only from under the prefix of the deleted job |
| `JobSafety.ClaimsAreWon` | src/app/worker/runner.py:91-95 | the right to enqueue or to run a job arises only by winning the UPDATE it stands for |
| `JobSafety.ReferencesAreKept` | src/app/pipeline/service.py:204-236 | a file reference is made out only for a file that is in the store under the job's own prefix |
| `JobSafety.OthersStayGrounded` | src/app/worker/runner.py:91-140 | what one actor relies on survives every call of another |
| `JobSafety.GoKeepsClaimsApart` | src/app/pipeline/service.py:238-266 | no call makes a second claim on a job somebody has a claim on |
| `JobSafety.MoveKeepsInvariant` | src/app/pipeline/service.py:291-344 | every step of the interleaved system keeps the log and the columns in agreement, files in the store until deletion, and claims with one actor |
| `JobTheorems.RunKeepsInvariant` | src/app/store/jobs.py:377-407 | over every interleaving the rows of jobs only move forward |
| `JobTheorems.AtMostOnce` | src/app/worker/runner.py:91-117 | over every interleaving of submissions, retries, confirmations and repeated deliveries, at most one actor wins the upload, the queue is called at most once and only after that, one worker at most starts the job, the workflow runs at most once, the job ends once, and its files are deleted at most once and only after that |
| `JobTheorems.FilesOutliveTheirUse` | src/app/worker/runner.py:101-107 | an uploaded or running job, and a job some worker is working on, has its input file in the store |
| `JobTheorems.DeletionComesLast` | src/app/worker/runner.py:135-140 | deletion of a job's files is issued only once the job is completed or failed, and its row never changes again |
| `JobTheorems.LosersChangeNothing` | src/app/worker/runner.py:91-95 | a worker that finds the job no longer uploaded changes nothing by any call it makes, whatever everybody else does in between |
| `JobTheorems.OnlyTheWinnerEnqueues` | src/app/pipeline/service.py:260-264 | if the winner of an upload is gone without calling the queue, nobody ever calls it for that job |
| `JobTheorems.RetriedConfirmationSucceeds` | src/app/pipeline/service.py:187-195 | when a confirmation committed but its caller saw an error, a retry reports success and changes nothing, so the queue is not called |
| `JobHandover.RunKeepsAccounted` | src/app/pipeline/service.py:238-266 | over every interleaving the wins of a job's upload are as many as its calls of the queue, its wins nobody learned of, and actors about to call the queue |
| `JobHandover.UploadsAreHandedOverExactly` | src/app/pipeline/service.py:238-266 | in every reachable state, a job with a file was or can still be handed to the queue exactly when the winner of its upload was told that it won |
| `JobHandover.WinnersHandOverExactly` | src/app/pipeline/service.py:238-266 | when an actor wins the upload of a pending job, some continuation hands the job to the queue exactly when the call that won reported success |
| `JobOutcomes.RetryOutcome` | src/app/pipeline/service.py:301-318 | a submission repeated under the run_id of an existing job, whatever its own calls do: it succeeds exactly for a pending job when nothing fails; the row ends with the status given by the faults, and is kept exactly when the job has ended, was not found, or no UPDATE took effect; the input is written again even for a job that has ended |
| `JobTheorems.LeftoversStay` | src/app/worker/runner.py:168-178 | a file under the prefix of a job whose deletion has been issued, such as an input written back, stays in the store for ever |
| `JobOutcomes.PrepareOutcome` | src/app/pipeline/service.py:133-141 | an upload prepared again under the run_id of an existing job, whatever its own calls do: it succeeds exactly for the same request, found and given a URL; the row changes, to failed, exactly when the job was found, has not ended, got no URL and marking it took effect |
| `JobOutcomes.SubmitOutcome` | src/app/pipeline/service.py:291-329 | a first submission left alone, whatever its five calls do: answer, row, log and store, column by column |
| `JobOutcomes.SubmitSucceedsExactly` | src/app/pipeline/service.py:291-329 | a first submission succeeds exactly when four calls do, and leaves its job uploaded with its saved file and enqueued |
| `JobOutcomes.RepeatedSubmission` | src/app/pipeline/service.py:291-329 | a submission repeated under the run_id of the same user's job goes on with that job, with the outcome told column by column |
| `JobOutcomes.SubmitRefused` | src/app/pipeline/service.py:302-306 | a submission of an unknown user, or under another user's run_id, is refused and changes nothing |
| `JobOutcomes.FirstPreparation` | src/app/pipeline/service.py:94-148 | a first preparation, whatever its three calls do: a pending job with the declared upload, and success exactly when the URL was made |
| `JobOutcomes.ConfirmOutcome` | src/app/pipeline/service.py:172-266 | a confirmation left alone, whatever its five calls do: another user's job is refused; an uploaded job is confirmed exactly under its own key; a pending one is uploaded exactly when size and media type agree and the UPDATE took effect, and enqueued exactly when the confirmation was told so |
| `JobOutcomes.LostUploadOutcome` | src/app/pipeline/service.py:245-258 | a confirmation that lost its UPDATE succeeds exactly when it was told so and finds its own job uploaded under its own key on re-reading, and changes nothing |
| `JobResults.ConfirmedJobsAreOwn` | src/app/pipeline/service.py:172-178 | over every interleaving a confirmation that reports success, marks a job uploaded or enqueues it is of the caller's own job, and a confirmed job has its file under the declared key |
| `JobOutcomes.WorkOutcome` | src/app/worker/runner.py:78-140 | a worker's run left alone, whatever its seven calls do: when the workflow runs, the final row with its output or error, when deletion is issued and which keys are left, and the answer |
| `JobOutcomes.WorkSucceedsExactly` | src/app/worker/runner.py:101-124 | a worker succeeds exactly for an uploaded job with its input in the store when five calls do; the workflow has run once and its answer is the output |
| `JobResults.OutputsAreAnswers` | src/app/worker/runner.py:107-117 | in every reachable state the workflow of a completed job ran exactly once, and the output is the one thing it answered |
| `JobTheorems.ProtocolRunsTheTable` | src/app/store/jobs.py:129-244 | the jobs table of the protocol is a run of the table's own operations, so the bound of three status changes holds here too |
| `JobServices.Backend.CreateJob` | src/app/pipeline/transactional_job_store.py:54-58 | one transaction: a failure before the commit leaves the table, one after it has already changed it |
| `JobServices.Backend.Mark` | src/app/pipeline/transactional_job_store.py:66-79 | one transition in one transaction: a failure before the commit leaves the table, one after it has already changed it |
| `JobServices.Backend.DeletePrefix` | src/app/storage/s3.py:304-345 | removes keys under the job's prefix only, all of them unless the call fails |
| `JobServices.PipelineService.MarkFailedSafely` | src/app/pipeline/service.py:331-344 | one attempt to mark the job failed, whose error is swallowed |
| `JobServices.PipelineService.Start` | src/app/pipeline/service.py:291-329 | does, call by call, what a submitter of the protocol does when left alone |
| `JobServices.PipelineService.PreparePresignedUpload` | src/app/pipeline/service.py:94-148 | does, call by call, what a preparer of the protocol does when left alone; a different request under the same run_id is refused |
| `JobServices.PipelineService.ConfirmPresignedUpload` | src/app/pipeline/service.py:150-266 | does, call by call, what a confirmer of the protocol does when left alone, with the content type cut at its semicolon, stripped and lower-cased |
| `JobProtocol.MediaTypeIs` | src/app/pipeline/service.py:422 | of a type between white space, with or without parameters behind it, the media type is that type in lower case |
| `JobServices.PipelineService.UploadConfirmed` | src/app/pipeline/service.py:238-258 | a lost transition is answered from the committed state, other errors are passed on |
| `JobServices.WorkerRunner.Run` | src/app/worker/runner.py:78-140 | does, call by call, what a worker of the protocol does when left alone, and cleans up the local copy of the input however the run ends |
| `JobServices.WorkersLeaveNothing` | src/app/worker/runner.py:131-137 | when directories can be removed, disk and registry after any run of a worker are as they were |
| `JobServices.WorkerRunner.Claim` | src/app/worker/runner.py:92-95 | a worker that loses the claim stops without marking the job failed |
| `JobServices.WorkerRunner.Abort` | src/app/worker/runner.py:126-140 | the failure path deletes files only when the failure was persisted |
| `JobListing.RankedIsSorted` | src/app/store/jobs.py:350-356 | the rows of a query come newest first, ties by descending id, each once |
| `JobListing.ListExactly` | src/app/store/jobs.py:301-361 | a query is refused exactly for bad arguments; otherwise its page is the next slice of the ranking, at most 100 rows, and says exactly when there is more |
| `JobListing.ListsExactly` | src/app/store/jobs.py:301-361 | by the columns: exactly the user's own jobs that pass every filter that is set are listed |
| `JobListing.ListPage` | src/app/store/jobs.py:301-361 | filtering, sorting and slicing the table row by row gives the page the listing theorems are about |
| `JobListing.WalkIsCompleteExactly` | src/app/store/jobs.py:532-538 | walking the pages shows exactly the ranking when, and only when, the step is at most 100 or everything fits on one page |
| `JobListing.PagesAreApart` | src/app/store/jobs.py:350-361 | pages hold only the asking user's jobs that pass the filters, and no job is on two pages |
| `JobListing.WalkPages` | frontend/src/features/jobs/hooks/use-jobs-history-filters.ts:117-125 | asking for page after page at the offsets of the history page ends with every selected job, in order |
| `GrowingList.WalksSkipNothing` | src/app/store/jobs.py:350-361 | while newer jobs are added between the pages, a walk to the end still shows every job selected when it began |
| `GrowingList.RunsGrow` | src/app/store/jobs.py:63-127 | without a filter on the status, every run of creations and transitions only adds newer rows to the list |
| `GrowingList.LeavingRowsHideOthers` | src/app/store/jobs.py:350-361 | when a row of the first page leaves the selection, the row that was next is on no later page |
| `StoragePaths.SuffixStaysInPlace` | src/app/storage/paths.py:45-55 | the suffix taken from a file name never contains a separator, and is empty or one dot followed by something |
| `StoragePaths.PlainNameKeepsItsExtension` | src/app/storage/paths.py:45-55 | a name without separators keeps what follows its last inner dot |
| `StoragePaths.OnlyTheNameMatters` | src/app/storage/paths.py:45-55 | only the last name of a path gives the suffix, whether slashes or backslashes come before it |
| `StoragePaths.IdsAreValidSegments` | src/app/storage/paths.py:27-42 | every positive integer renders as a segment the check accepts |
| `StoragePaths.PrefixCoversOwnKeysOnly` | src/app/storage/paths.py:13-20 | the prefix of one job is a prefix of an input key exactly when the key is of the same job |
| `StoragePaths.PrefixesAreDisjoint` | src/app/storage/paths.py:13-15 | no key lies under the prefixes of two jobs |
| `StoragePaths.SegmentsSeparate` | src/app/storage/paths.py:13-25 | the prefix of any segment covers a key of a segment without separators exactly when the two are equal |
| `StoragePaths.CoveredExactly` | src/app/storage/paths.py:27-42 | another accepted segment covers the keys of an accepted one exactly when the latter begins with an accepted segment and a separator |
| `StoragePaths.TrailingSlashIsAccepted` | src/app/storage/paths.py:27-42 | the segment check alone does not keep prefixes apart: it accepts every plain segment with a final slash as well |
| `StoragePaths.PartsJoin` | src/app/storage/paths.py:34-36 | the components of two paths joined by a separator are the components of both |
| `StoragePaths.SegmentsRefused` | src/app/storage/paths.py:27-42 | segments of several components, absolute ones, dots and white space at the ends are refused |
| `S3Storage.ChunksPartition` | src/app/storage/s3.py:379-386 | the batches of a page concatenate to it, each of one to a thousand keys |
| `S3Storage.BatchesPartition` | src/app/storage/s3.py:314-320 | the batches of all pages concatenate to the listing |
| `S3Storage.Bucket.DeletePage` | src/app/storage/s3.py:320-340 | stops at the first batch that is not deleted whole; only keys it sent are gone, and after success all of them unless written again |
| `S3Storage.Bucket.DeletePrefix` | src/app/storage/s3.py:304-345 | succeeds exactly for a valid prefix whose pages all arrive and whose batches are all deleted; then under the prefix only keys written meanwhile are left, and all of those that were not listed; in any case no key outside the prefix is gone |
| `S3Storage.JobPrefixIsValid` | src/app/storage/s3.py:354-369 | the prefix of a job passes the key check and is deleted as it is |
| `S3Storage.ClimbingKeysRefused` | src/app/storage/s3.py:354-369 | empty and absolute keys are refused, and so is every key with a climbing component |
| `S3Storage.OneJobsFiles` | src/app/storage/s3.py:304-345 | deleting the files of one job leaves none of its keys and every key of every other job |
| `RefreshRounds.StepKeepsInvariant` | frontend/src/shared/api/refresh-coordinator.ts:9-30 | every step keeps the active round the only running one, and every joiner true to its round's result |
| `RefreshRounds.StartHolds` | frontend/src/shared/api/refresh-coordinator.ts:1-8 | a client that has sent nothing yet meets what the theorems about runs start from |
| `RefreshRounds.JoinsExactly` | frontend/src/shared/api/client.ts:57-75 | a failed request joins a refresh exactly under the six conditions, the running one if there is one; otherwise it fails and nothing else changes |
| `RefreshRounds.SettlesWith` | frontend/src/shared/api/refresh-coordinator.ts:18-29 | a round settles with the text between the white space of the answer, and is rejected exactly when there is none |
| `RefreshRounds.ResumesWith` | frontend/src/shared/api/client.ts:73-86 | a waiting request retries with its round's token, which becomes the client's; a rejected round leaves the client without a token |
| `RefreshRounds.RunKeepsTokensClean` | frontend/src/shared/api/client.ts:26-29 | over every run the client's token, and every token a round settled with, is without white space at its ends |
| `RefreshRounds.SingleFlight` | frontend/src/shared/api/refresh-coordinator.ts:9-30 | with handlers that never throw at once, at most one refresh runs at any time, new failures join it, a settled coordinator is idle, and a request is retried exactly when its round gave a token |
| `RefreshRounds.RoundsAreFinal` | frontend/src/shared/api/client.ts:73-89 | a request keeps the round it joined, a round its single result, and a retried request is never retried again |
| `RefreshRounds.StuckExactly` | frontend/src/shared/api/refresh-coordinator.ts:18-29 | the coordinator is left holding a rejected promise exactly when an idle one calls a handler that throws at once |
| `RefreshRounds.StuckForEver` | frontend/src/shared/api/refresh-coordinator.ts:9-16 | a coordinator left holding a rejected promise never starts another refresh |
| `RefreshCoordinator.Client.Refresh` | frontend/src/shared/api/refresh-coordinator.ts:9-16 | joins the active round or starts one, and returns it |
| `RefreshCoordinator.Client.SettleRefresh` | frontend/src/shared/api/refresh-coordinator.ts:18-29 | settles the round and goes idle, whatever the handler answered |
| `RefreshCoordinator.Client.HandleResponseFailure` | frontend/src/shared/api/client.ts:57-75 | joins a refresh exactly when all six conditions allow it |
| `RefreshCoordinator.Client.ResumeAfterRefresh` | frontend/src/shared/api/client.ts:73-86 | a rejected round clears the token, a fulfilled one installs it and retries once |
| `RefreshCoordinator.Client.EndRetry` | frontend/src/shared/api/client.ts:83-89 | the retried request ends with its own result, without another refresh |
| `RefreshCoordinator.Client.SetApiAccessToken` | frontend/src/shared/api/client.ts:26-29 | a blank token is no token |
| `BillingMaps.LinksStayInjective` | src/app/store/billing.py:50-141 | no run gives one Stripe customer to two users or loses a link |
| `BillingMaps.OthersLeaveALinkAlone` | src/app/store/billing.py:50-141 | a user's customer does not change unless that user is linked again |
| `BillingMaps.ProcessedExactlyOnce` | src/app/store/billing.py:283-324 | of all deliveries of an event exactly the first is to be processed, and what it carried is kept |
| `BillingMaps.PlansAreIndependent` | src/app/store/billing.py:143-256 | a subscription is determined by the operations on its own id |
| `BillingMaps.LastWriteStays` | src/app/store/billing.py:623-676 | it holds exactly the values last written for it |
| `BillingMaps.LinkHolds` | src/app/store/billing.py:50-141 | an accepted link is the user's customer until that user is linked again |
| `BillingMaps.CancellationHolds` | src/app/store/billing.py:566-621 | a cancelled subscription reads canceled, with the given flag and all else as before, until it is written again |
| `BillingMaps.FirstDeliveryHolds` | src/app/store/billing.py:258-324 | what the first delivery of an event carried is what stays of it |
| `BillingMaps.ProcessingHolds` | src/app/store/billing.py:515-564 | a marked event carries the time of its marking until it is marked again, and keeps what it carried |
| `UniqueTable.Find` | src/app/store/billing.py:371-400 | finds the row of a key exactly when there is one |
| `BillingStore.Store.UpdateBillingCustomer` | src/app/store/billing.py:678-731 | updates the row exactly when no other user has the customer |
| `BillingStore.Store.SetStripeCustomer` | src/app/store/billing.py:50-141 | does what linking means, whether or not the first select missed a concurrent insert |
| `BillingStore.Store.UpsertSubscription` | src/app/store/billing.py:143-256 | leaves the written values under the subscription id, whether or not the first select missed a concurrent insert |
| `BillingStore.Store.MarkSubscriptionCanceled` | src/app/store/billing.py:566-621 | cancels exactly an existing subscription |
| `BillingStore.Store.RecordBillingEvent` | src/app/store/billing.py:258-324 | records a new event, or returns the recorded one and says not to process it |
| `BillingStore.Store.MarkBillingEventProcessed` | src/app/store/billing.py:515-564 | marks exactly a recorded event |
| `Workspaces.RunKeepsAccounted` | src/app/worker/materializer.py:249-297 | over every run, failed deletions included, every workspace the materializer made that still exists is in its registry, and nothing else is |
| `Workspaces.CleanupDeletesOnlyOwned` | src/app/worker/materializer.py:91-142 | whatever file cleanup is handed, it deletes only below a registered workspace that contains the file |
| `Workspaces.ResolvingDeletesNothing` | src/app/worker/materializer.py:173-226 | resolving an input, even when the download fails, deletes nothing that was there before |
| `Workspaces.ResolveThenCleanup` | src/app/worker/materializer.py:91-142 | after a successful resolution cleanup works exactly when the removal does, and then disk and registry are as they were; otherwise the workspace stays registered |
| `Workspaces.FailedResolution` | src/app/worker/materializer.py:215-217 | a failed resolution leaves disk and registry as they were exactly when the workspace it made, if any, could be removed |
| `Materializer.StorageFileMaterializer.Resolve` | src/app/worker/materializer.py:173-226 | registry, disk and answer are those of the resolution the workspace theorems are about |
| `Materializer.StorageFileMaterializer.Cleanup` | src/app/worker/materializer.py:91-142 | registry, disk and answer are those of the cleanup the workspace theorems are about |
| `Materializer.StorageFileMaterializer.DeleteWorkspace` | src/app/worker/materializer.py:278-297 | the workspace leaves the registry exactly when it is gone |
| `JsonValues.JsonIsUnchanged` | src/app/worker/outputs.py:296-324 | normalisation leaves JSON as it is |
| `JsonValues.JsonSafeExactly` | src/app/worker/outputs.py:296-324 | one pass gives JSON exactly when nothing opaque is inside and enums hold JSON, and a second pass then changes nothing |
| `JsonValues.EnumsAreNotLookedInto` | src/app/worker/outputs.py:321-322 | an enum whose value is a path needs two passes |
| `JobOutputTheorems.CompletedOutputOfJson` | src/app/worker/outputs.py:37-80 | a result, wrapped or bare, that normalises to JSON is refused exactly when its transcription, or its script, is neither absent nor an object |
| `JobOutputTheorems.PublishedExactly` | src/app/schemas/jobs.py:360-426 | any result is persisted exactly when it can be assembled and a second normalisation makes that JSON, and can then be published exactly when its parts have the right shape; of a convertible result, wrapped or bare, this is the shape of analysis, transcription, script and validation in its payload |
| `JobOutputTheorems.FirstNameCounts` | src/app/worker/outputs.py:117-181 | each part of a payload is taken from the first of its names that is there |
| `JobOutputTheorems.UsageOfBare` | src/app/worker/outputs.py:227-248 | the token usage of a bare payload is its own object, or else the counters that are there and not null |
| `JobOutputTheorems.ExecutorResultsReachTheUser` | src/app/worker/workflows.py:199-227 | every result of the workflow executor is persisted, published and shown by the CLI without an error |
| `JobOutputTheorems.PublicFieldsAreKept` | src/app/schemas/jobs.py:360-426 | analysis, token usage, time, validation and missing proofs are published as the executor answered them, the text of the transcription too, and its language stripped, or null when blank |
| `JobOutputTheorems.PublicScriptIsKept` | src/app/worker/outputs.py:198-224 | every public field of the script arrives unchanged, and no diagnostic field does |
| `JobOutputTheorems.CliShowsPublicOutput` | src/cli/api_client.py:588-647 | whatever was persisted, the CLI shows the public output unchanged |
| `PublicResults.CopyOptionalPublicField` | src/app/schemas/jobs.py:460-490 | copies one field into the dictionary, or refuses it and leaves the dictionary alone |
| `PublicResults.BuildPublicJobOutput` | src/app/schemas/jobs.py:360-426 | fills the dictionary with the public output the theorems are about, or fails exactly when there is none |
| `ErrorDetails.SanitizedIsPublic` | src/app/api/exception_handlers.py:246-276 | the server's filter lets out JSON with listed keys only, at every depth |
| `ErrorDetails.CliKeepsExactlyPublic` | src/cli/api_client.py:481-508 | the CLI's filter keeps a value exactly when it is such JSON already |
| `ErrorDetails.CliShowsServerDetails` | src/cli/api_client.py:481-508 | the CLI shows whatever error details the server lets out unchanged, at any depth |
| `ErrorDetails.ListedPathsSurvive` | src/app/api/exception_handlers.py:246-276 | along listed keys nothing is lost |
| `ErrorDetails.FillDetails` | src/app/api/exception_handlers.py:246-260 | the loop over the details yields the filtered dictionary |
| `Decimal.ReadAfterPrint` | src/app/auth/tokens.py:238-244 | reading a printed number gives it back |
| `Decimal.PrintAfterRead` | src/app/auth/tokens.py:238-244 | a text of the subject pattern is the print of the positive number it reads as |
| `AccessTokens.SubjectsAreCanonical` | src/app/auth/tokens.py:238-244 | a subject names a user exactly when it is that user's printed positive id |
| `AccessTokens.DecodesExactly` | src/app/auth/tokens.py:141-179 | whoever made it, a token decodes exactly when kind, issuer, audience, canonical subject, identifier and dates are in order and the clock is within the dates, give or take the skew |
| `AccessTokens.IssuedTokensDecode` | src/app/auth/tokens.py:112-179 | a token issued by one service decodes with another exactly when issuer and audience agree and the clock lies between its second and the end of its TTL, give or take the skew; it then names its user and spans exactly the TTL |
| `AccessTokens.PairIssuedExactly` | src/app/auth/service.py:460-475 | a pair is issued exactly when the access token was signed early enough for the refresh token to outlive it, and had not expired when decoded |
| `AccessTokens.PromptPairsAreIssued` | src/app/auth/principal.py:161-174 | issuing never fails while signing takes less than the difference of the two TTLs and the new token is decoded at least a second before its TTL and skew run out |

## Left out

- JobServices.PipelineService.ConfirmPresignedUpload: lower-casing the content type is ASCII only; the
  media types accepted by default are ASCII.
- Mappings with keys that are not text: a key such as `1` next to `"1"` would be merged by `str`.
- The request interceptor of the browser client and the headers of a retried request.
- The CLI's login and logout, which replace or drop its session, and a session file that cannot be read.
- Passwords, SHA-256, JWT signatures and Google's verification: cryptography of other libraries, used as opaque values.
- Validators and normalisers of identifiers, emails, text and datetimes in the stores, and the columns `updated_at`,
  `token_usage_json` and `execution_time_seconds`: field checks and copies without a protocol.
- `AuthStore.rotate_session`, `AuthStore.revoke_session` and password login and registration: thin uses of transactions that
  are modelled.
- Reading subscriptions by user or status, step events beyond their append, and job status responses: projections.
- SMTP, HTTP transport, routing, cookies, CORS, logging, Celery and the inline queue: plumbing around the calls modelled.
- SQL text, migrations, engines and settings: only rows, unique columns, guarded updates and rollback matter here.
- LLM and transcription adapters, workflow graphs and FFmpeg commands: wrappers of external services.
- User interface, translations and bundling.
- Google Cloud and local storage, and the bytes of files: the model has one storage backend and keeps keys and, for direct
  uploads, size and type.
- The Pydantic validation of API responses, which could refuse a public output whose nested values have other types.
