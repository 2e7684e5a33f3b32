# Sessions, verifications and the outbox, verified

A model in Dafny of the account and session service and of its mail worker, with proofs of what
they keep over whole runs. Four parts share one database and one clock.

- **Refresh-token rotation.** `Sessions` holds the two session tables and the transactions over
  them, atomic and statement by statement with any statement failing; `ExtendTransactions` splits
  them at their row locks and runs any number at once.
- **The session cache.** `Redis` has the three stores over one flat key space, `AuthService` the
  three calls of the service, `ServiceRuns` their runs compared with a service that never caches,
  `TokenRuns` what a call gives and whose token it is, and `RefreshProtocol` concurrent `Refresh`
  calls split at their stores.
- **Email verification.** `Verifications` holds users, verifications and the events written with
  them, `VerificationLifecycle` the invariants of every run, `VerificationAnswers` the answers, and
  `VerificationService` the service calls on top.
- **The outbox.** `OutboxTable` has the claim and the three marks, `Backoff` the delays, `Workers`
  any number of workers over one table, `Drain` and `Overtaking` termination and overtaking,
  `Dispatch` the handler and the processor, `Delivery` the whole way from a registration to the mail,
  and `DeliveryRuns` what the handler answers and what becomes of the mail.

`Codec` and `Crypto` supply the texts and the cryptography, `Core` and `Sums` the vocabulary.

Each repository, store and service is a class whose methods follow the source statement by
statement; their contracts tie the new state and the answer to a function of the old state (`Extend`,
`Resend`, `Worked`, ...), and the lemmas are about these functions, over every run. A transaction
takes a `Fault`: a statement that fails and rolls everything back, or a commit that takes effect
without being acknowledged. Time is an integer count of nanoseconds. Random bytes, ids, clock
readings and the fate of a cache write or a mail are parameters, so every statement holds for all
of them. SHA-256 and AES-GCM are parameters too; `Crypto.Injective` and `Crypto.Sound` say what is
assumed of them, and only the lemmas that name them assume it.

Five places where the code does less than one might expect of it, with the exact condition:

- A session revoked because of token reuse may still be accepted from the cache, exactly while a
  live active mark of it is cached (`ServiceRuns.CacheWithLostWrites`). Among calls that do not
  overlap, that takes a lost write of the inactive mark or an unacknowledged revoking commit, and
  either is enough (`ServiceRuns.CacheTransparency`, `ServiceRuns.StaleMarkIsReachable`). Overlapping
  calls need no failure: a refresh that rotated before the reuse may write its active mark after it
  (`ServiceRuns.OverlapLeavesStaleMark`).
- `ConfirmEmail` may answer that the user is already verified, exactly for a row that is live at the
  stamp although a row of the user was used that was created after this one expired, or used before
  this one was created (`VerificationLifecycle.AlreadyVerifiedExactlyWhen`). That takes stamps that
  reach the database out of order, and with such stamps it does happen
  (`VerificationLifecycle.AlreadyVerifiedUnreachable`,
  `VerificationLifecycle.AlreadyVerifiedIsReachable`).
- `MarkProcessed` and `MarkFailed` do not test `failed_at`. The two columns are nevertheless never
  both set, because a held lock excludes both (`Workers.ClaimsAreConserved`, `Workers.MarksAreFenced`).
- An event may fail although the sender took its mail, but only if the mark that follows is lost each
  time (`DeliveryRuns.FailureMeansUnmarked`, `DeliveryRuns.DeliveredEventMayFail`).
- A base URL is only required not to be empty. Mailed links work for all tokens exactly when it
  holds neither `?` nor `#` (`Dispatch.LinksWorkExactlyFor`).

## Model

| member | source | states |
|---|---|---|
| Sessions.SessionRepository.CreateSession | internal/adapter/repository/postgres/session_repository.go:23-91 | a login inserts the session of its user and its first token together or nothing, whichever statement fails |
| Sessions.SessionRepository.GetSessionState | internal/adapter/repository/postgres/session_repository.go:93-109 | reads the row, or reports a missing row or a failed read, each apart |
| Sessions.SessionRepository.ExtendSession | internal/adapter/repository/postgres/session_repository.go:117-248 | the statements, early returns and rollbacks amount to one atomic transaction for every failing statement; each answer names the session and the user of the presented token and is given only for what the tables held, with exactly its change |
| Sessions.ExtendAnswers | internal/adapter/repository/postgres/session_repository.go:129-247 | which answer is given for which state of token and session, whose identity it carries, and the one change it stands for; without a failure only a collision makes it unavailable |
| Sessions.ReplyByPlace | internal/adapter/repository/postgres/session_repository.go:166-247 | the place of the presented token in the chain decides the answer, both ways: the head rotates and the chain grows by one, an older token is a retry for the operation that used it and revokes the session for any other |
| Sessions.AppendedChain | internal/adapter/repository/postgres/session_repository.go:190-240 | rotation appends the new token to the session's chain and moves the expiry with it |
| Sessions.ApplyKeepsConstraints | migrations/postgres/000004_create_auth_sessions.up.sql:21-37 | the primary key, foreign key and CHECK clauses survive every call |
| Sessions.ChainInvariant | internal/adapter/repository/postgres/session_repository.go:117-248 | in every reachable state each session's tokens form one linear chain with one unused token, each used exactly when its successor was created, and the session expires one lifetime after the head was created |
| Sessions.InactiveStaysPut | internal/adapter/repository/postgres/session_repository.go:166-168 | no call stamped after revocation or expiry changes the session or its tokens |
| Sessions.DeadSessionIsFrozen | internal/adapter/repository/postgres/session_repository.go:166-247 | once revoked, for ever and at any stamps, a session and its chain do not change; once expired, not as long as no stamp precedes the expiry |
| Sessions.UseIsFinal | internal/adapter/repository/postgres/session_repository.go:170-201 | a used token keeps its time and its operation for ever, so only that operation is ever answered as a retry |
| ExtendTransactions.RunKeepsLocks | internal/adapter/repository/postgres/session_repository.go:129-164 | in every interleaving a transaction holds the rows its phase says and its copies equal the tables |
| ExtendTransactions.FinishIsAtomic | internal/adapter/repository/postgres/session_repository.go:129-247 | deciding on the copies read under the locks equals the atomic transaction at commit time |
| ExtendTransactions.Serialisable | internal/adapter/repository/postgres/session_repository.go:117-248 | every interleaving of any number of transactions, aborted anywhere, gives the tables and answers of the atomic ones in commit order, each transaction once |
| ExtendTransactions.LogOnlyGrows | internal/adapter/repository/postgres/session_repository.go:117-248 | the serial order respects real time |
| ExtendTransactions.ChainsUnderConcurrency | internal/adapter/repository/postgres/session_repository.go:117-248 | the chain invariant holds of the interleaved transactions |
| ExtendTransactions.NoDeadlock | internal/adapter/repository/postgres/session_repository.go:129-164 | there is never a ring of transactions waiting for one another |
| ExtendTransactions.SomeoneCanMove | internal/adapter/repository/postgres/session_repository.go:129-164 | whenever a transaction is unfinished, one at least as far along can take its next step |
| ExtendTransactions.RunsEnd | internal/adapter/repository/postgres/session_repository.go:117-248 | a set of transactions ends after at most three steps each |
| AuthService.Service.Authenticate | internal/service/auth/service.go:118-161 | token store, then session store, then database and cache update, with any read or write failing; a missing session and a failed read are told apart |
| AuthService.Service.Refresh | internal/service/auth/service.go:163-234 | generation, transaction and cache writes with all answers and failures |
| AuthService.Service.Answer | internal/service/auth/service.go:192-233 | the writes and the answer that follow each outcome of the transaction |
| AuthService.Service.Login | internal/service/auth/service.go:273-319 | an opened session and its first pair of tokens, once the checks before were passed |
| ServiceRuns.RunsAlike | internal/service/auth/service.go:118-319 | but for the session store, the service and the one that never caches sessions have the same tables and stores after every run |
| ServiceRuns.RunInv | internal/service/auth/service.go:118-231 | over every run inactive marks are true for good, active marks lapse with their session and, while revocations reach the store, belong to unrevoked ones |
| ServiceRuns.AnswersCompared | internal/service/auth/service.go:118-161 | the cached and the uncached answer differ exactly for a live active mark of a revoked session |
| ServiceRuns.CacheTransparency | internal/service/auth/service.go:118-231 | over every run with evictions, whatever cache writes and commits are lost, in which each transaction that revokes a session is acknowledged and its inactive mark written, every call is answered as without the session store, except that a failing database may make the uncached one fail |
| ServiceRuns.CacheWithLostWrites | internal/service/auth/service.go:124-152 | with lost writes: unless the database fails just then, the answers differ if and only if a stale mark is live; in any case an active session is never rejected and an expired one never accepted |
| ServiceRuns.StaleMarkIsReachable | internal/service/auth/service.go:211-217 | one lost write of an inactive mark, and one unacknowledged revocation too, does lead to a revoked session being accepted |
| ServiceRuns.OverlapLeavesStaleMark | internal/service/auth/service.go:190-231 | without any failure, a refresh that rotated before an overlapping reuse was detected and writes its active mark after it leaves a revoked session accepted |
| ServiceRuns.SessionsAreChained | internal/service/auth/service.go:176-190 | the inputs of Login and Refresh have the shape the chain invariant asks for, so over every run of the service each session has its one linear chain |
| ServiceRuns.AccessTokenBound | internal/service/auth/service.go:194-227 | however often a refresh is retried, an access token minted at t by Refresh is not accepted from t + lifetime + retry TTL on, and one minted by Login not from t + lifetime on |
| TokenRuns.AcceptedNamesOwner | internal/service/auth/service.go:118-319 | over every run an access token is accepted for the user who opened that session by logging in, and for the session for which that very token was minted |
| TokenRuns.OneOwner | internal/service/auth/service.go:236-319 | a session has one opening and one owner |
| TokenRuns.OneTokenOnePair | internal/service/auth/service.go:190-233 | over every run of the service, all refreshes that presented one token and were answered with a pair carried one operation and got one pair, whose refresh token is the presented one's successor |
| TokenRuns.RetryGivesFirstPair | internal/service/auth/service.go:192-208 | a retry whose result was written and not evicted, before the retry TTL has passed and while the session is active, is answered with the first call's pair, whatever happened meanwhile |
| TokenRuns.RotationTakesEffect | internal/service/auth/service.go:219-233 | without a failure, presenting the unused token of an active session gives the minted pair and writes the result, the access token and the active mark with their deadlines |
| TokenRuns.RetryTakesEffect | internal/service/auth/service.go:194-209 | a retry gives the stored pair and renews its access token for the session's owner, or reports that there is none |
| TokenRuns.ReuseTakesEffect | internal/service/auth/service.go:211-217 | a reuse revokes the session now, leaves an inactive mark and changes nothing else |
| TokenRuns.RefreshRefusals | internal/service/auth/service.go:163-217 | what is answered for missing random bytes, an unknown token, an inactive session and an unreadable result; none of it touches the stores |
| TokenRuns.LoginAnswers | internal/service/auth/service.go:291-311 | a login fails exactly if a random source fails or an id or hash is taken, and then changes nothing |
| TokenRuns.LoginTakesEffect | internal/service/auth/service.go:273-319 | a login that succeeds returns its minted pair, whose refresh token is the session's unused token and whose access token, if stored, is accepted for that user and session until it or the session lapses |
| TokenRuns.AuthenticateAnswers | internal/service/auth/service.go:118-161 | over every run: an invalid answer is given if and only if no entry is live, an error only when a read failed, an inactive one only when true, and a session is never missing |
| TokenRuns.DatabaseAnswerIsRemembered | internal/service/auth/service.go:139-152 | a database answer is cached until the session lapses, or for five minutes if it is inactive |
| RefreshProtocol.TransactEffect | internal/service/auth/service.go:190-217 | what one transaction does to the tokens, and which call becomes the winner of a token |
| RefreshProtocol.RunInv | internal/service/auth/service.go:191-233 | every used token has one winner, and every stored result is its winner's pair |
| RefreshProtocol.RefreshIsIdempotent | internal/service/auth/service.go:191-233 | over every interleaving, successful calls that presented the same token carried the same operation and returned the same pair, whose refresh token is the presented one's successor in the chain |
| Redis.KeysAreDistinct | internal/adapter/repository/redis/access_token_storage.go:27 | no two keys of any of the stores have the same text |
| Redis.KnownKeys | internal/adapter/repository/redis/access_token_storage.go:17-28 | the texts of the keys, with their prefixes, and of an identity |
| Redis.IdentityRoundTrip | internal/adapter/repository/redis/access_token_storage.go:28-62 | the stored `user:session` text decodes to the same identity |
| Redis.WritesCorrespond | internal/adapter/repository/redis/session_storage.go:24-30 | a write to the flat key space changes one entry of one store and nothing else |
| Redis.EvictionsCorrespond | internal/adapter/repository/redis/session_storage.go:32-43 | evicting any keys drops exactly their entries |
| Redis.Client.Set | internal/adapter/repository/redis/session_storage.go:24-30 | the flat key space keeps representing the three stores |
| Redis.AccessTokenStorage.Store | internal/adapter/repository/redis/access_token_storage.go:26-35 | overwrites one entry with its deadline; the other stores are untouched |
| Redis.AccessTokenStorage.Get | internal/adapter/repository/redis/access_token_storage.go:37-63 | finds the identity stored under the hash until its deadline; never fails to parse what was stored |
| Redis.RefreshResultStorage.Store | internal/adapter/repository/redis/refresh_result_storage.go:30-45 | overwrites one result with its deadline; the other stores are untouched |
| Redis.RefreshResultStorage.Get | internal/adapter/repository/redis/refresh_result_storage.go:47-63 | finds the pair stored under the old hash until its deadline |
| Redis.SessionStorage.SetSession | internal/adapter/repository/redis/session_storage.go:24-30 | overwrites one mark with its deadline; the other stores are untouched |
| Redis.SessionStorage.GetSession | internal/adapter/repository/redis/session_storage.go:32-43 | finds the mark of the session until its deadline |
| Verifications.AuthRepository.CreateUser | internal/adapter/repository/postgres/auth_repository.go:47-128 | user, verification and event are inserted together or not at all, with the answer for each cause |
| Verifications.AuthRepository.ConfirmEmail | internal/adapter/repository/postgres/auth_repository.go:130-238 | the refusals in their order; otherwise row and user are marked together or not at all |
| Verifications.AuthRepository.ResendVerification | internal/adapter/repository/postgres/auth_repository.go:241-374 | the refusals in their order; otherwise the live rows are revoked and the new row and event inserted together or not at all |
| Verifications.AuthRepository.ReadForDelivery | internal/adapter/repository/postgres/auth_repository.go:376-404 | delivery data of an unsettled row that keeps its ciphertext, or why there is none |
| VerificationLifecycle.Invariant | internal/adapter/repository/postgres/auth_repository.go:47-374 | every reachable state, with any stamps and failures, keeps the indexes, the rate limits and the agreement of rows and users |
| VerificationLifecycle.SlidingWindow | internal/adapter/repository/postgres/auth_repository.go:270-303 | at most five verifications of a user, registration included, lie in any closed hour, even when stamps reach the lock out of order |
| VerificationLifecycle.WindowIsTight | internal/adapter/repository/postgres/auth_repository.go:270-286 | a resend that goes through adds one to its hour, and one refused for the limit finds exactly five in it |
| VerificationLifecycle.WindowIsReached | internal/adapter/repository/postgres/auth_repository.go:270-303 | after a registration and four resends a minute apart the hour holds five rows and the next resend is refused |
| VerificationLifecycle.NewRowsComeLater | internal/adapter/repository/postgres/auth_repository.go:288-303 | a new row is at least a minute after every earlier committed row of its user |
| VerificationLifecycle.OneLiveVerification | internal/adapter/repository/postgres/auth_repository.go:305-317 | from the newest creation time on at most one row of a user is live, and it is the newest |
| VerificationLifecycle.VerifiedByExactlyOneUse | internal/adapter/repository/postgres/auth_repository.go:190-231 | a user is verified at t if and only if one of their rows was used at t, never revoked, and is their only used row |
| VerificationLifecycle.VerifiedUserIsFrozen | internal/adapter/repository/postgres/auth_repository.go:202-231 | once a user is verified, nothing of the user or their rows ever changes |
| VerificationLifecycle.AlreadyVerifiedExactlyWhen | internal/adapter/repository/postgres/auth_repository.go:190-204 | in every reachable state the refusal is given if and only if the row is live at the stamp and a row of the user was used that was created after this row expired, or that was used before this row was created |
| VerificationLifecycle.AlreadyVerifiedNeedsAnOldStamp | internal/adapter/repository/postgres/auth_repository.go:202-204 | hence the refusal implies a confirmation stamped before one of the user's rows was created |
| VerificationLifecycle.AlreadyVerifiedUnreachable | internal/adapter/repository/postgres/auth_repository.go:202-204 | with stamps in order the refusal is never given |
| VerificationLifecycle.AlreadyVerifiedIsReachable | internal/adapter/repository/postgres/auth_repository.go:202-204 | with stamps out of order it is given, for every lifetime of at least the cooldown |
| VerificationAnswers.ConfirmAnswers | internal/adapter/repository/postgres/auth_repository.go:146-231 | in every reachable state which of the refusals is given for which row, and that a confirmation uses the row and verifies its user now and changes nothing else |
| VerificationAnswers.ResendAnswers | internal/adapter/repository/postgres/auth_repository.go:258-303 | in every reachable state which refusal is given, with the limits spelt out as five in an hour and one minute |
| VerificationAnswers.ResendTakesEffect | internal/adapter/repository/postgres/auth_repository.go:305-366 | a resend revokes exactly the user's live rows, now, and adds its row and its event |
| VerificationAnswers.CreateAnswers | internal/adapter/repository/postgres/auth_repository.go:66-127 | an address is taken if and only if one equal but for upper and lower case is there; otherwise user, row and event are written as given |
| VerificationAnswers.FaultsAnswerFailure | internal/adapter/repository/postgres/auth_repository.go:47-374 | a commit that is not acknowledged is answered with a failure though it took effect; any other failure changed nothing |
| VerificationAnswers.LimitsHold | internal/adapter/repository/postgres/auth_repository.go:270-303 | never more than five rows of a user in 3600 s, never two within 60 s |
| VerificationService.Service.PrepareEmailVerification | internal/service/auth/service.go:407-454 | the row lasts one lifetime from now and carries the hash and the encryption under its id of one token, the event names row and address and is available now; a failing generator or cipher gives an error |
| VerificationService.Service.Register | internal/service/auth/service.go:337-362 | registration is CreateUser with a prepared row and event, and changes nothing when the preparation fails |
| VerificationService.Service.ResendVerification | internal/service/auth/service.go:382-404 | resending is ResendVerification of the repository with a prepared row and event, and changes nothing when the preparation fails |
| VerificationService.Service.ConfirmEmail | internal/service/auth/service.go:365-373 | an empty token is refused, any other confirmed by its hash |
| VerificationService.TokenOpensForItsRow | internal/service/auth/service.go:407-426 | the encrypted token opens to the raw token under its row's id and under no other id |
| Crypto.Generator.Generate | internal/security/token/token.go:18-31 | the token text encodes the random bytes and comes with its hash; a failing source gives an error |
| Crypto.TokenText | internal/security/token/token.go:25-28 | a token is 43 characters that need no escaping in a URL (section 5 of RFC 4648), and decodes to its bytes |
| Codec.KnownBase64 | internal/security/token/token.go:25-27 | test vectors of section 10 of RFC 4648, and the two digits of the URL-safe alphabet |
| Codec.KnownUuidText | internal/adapter/repository/redis/session_storage.go:25 | the canonical text of an id |
| Codec.KnownEscapes | internal/handler/event/dispatcher.go:97 | how single characters are escaped in a query |
| Codec.DigitIs | internal/security/token/token.go:25-27 | the 64 digits of section 5 of RFC 4648 in their order |
| Crypto.TokensDiffer | internal/security/token/token.go:18-36 | different random bytes give different texts and different hashes |
| Crypto.Cipher.Encrypt | internal/security/secret/cipher.go:47-62 | nonce followed by the sealed text; a failing source gives an error |
| Crypto.Cipher.Decrypt | internal/security/secret/cipher.go:64-80 | splits at the nonce size, refuses what is too short, opens the rest |
| Crypto.DecryptsExactlyWhatWasEncrypted | internal/security/secret/cipher.go:47-80 | a value decrypts to p under some data if and only if it is an encryption of p under that data |
| Crypto.OtherDataIsRefused | internal/security/secret/cipher.go:64-77 | a value encrypted under one id never decrypts under another |
| OutboxTable.OutboxRepository.ClaimNext | internal/adapter/repository/postgres/outbox_repository.go:23-75 | claims a first claimable row not locked elsewhere, counts the attempt and changes only that; reports none exactly when none is claimable |
| OutboxTable.OutboxRepository.MarkProcessed | internal/adapter/repository/postgres/outbox_repository.go:77-102 | marks the row under its own lock and erases the payload, or reports the lease lost and changes nothing |
| OutboxTable.OutboxRepository.ScheduleRetry | internal/adapter/repository/postgres/outbox_repository.go:104-128 | releases the row for later under its own lock, or reports the lease lost and changes nothing |
| OutboxTable.OutboxRepository.MarkAsFailed | internal/adapter/repository/postgres/outbox_repository.go:130-154 | marks the row failed under its own lock, or reports the lease lost and changes nothing |
| Backoff.DelayBounds | internal/outbox/processor.go:142-166 | every delay lies within 0.75 and 1.25 of its base, for all draws |
| Backoff.DelayValues | internal/outbox/processor.go:142-166 | the delay in the middle of the draw is 5 s, 15 s, 30 s, 1 min and then 5 min, and three quarters of it at the low end |
| Backoff.DelayGrows | internal/outbox/processor.go:153-166 | up to the fifth attempt every delay exceeds every delay before, for all draws |
| Backoff.TenAttempts | internal/outbox/processor.go:142-166 | nine delays add up to 1207.5 s at least and 2012.5 s at most |
| Workers.RunKeepsInv | internal/outbox/processor.go:90-140 | the accounting, lock, spacing and backoff invariants over any number of workers, crashes and lost marks |
| Workers.ClaimsAreConserved | internal/outbox/processor.go:106-139 | attempts equal retries, superseded claims, the current claim and the terminal mark together, so they exceed ten only by superseded claims; a held lock excludes both terminal columns, which exclude each other |
| Workers.ClaimsAreBounded | internal/outbox/processor.go:106-139 | however the workers interleave, all claims together are at most ten for each event and one for each superseded claim |
| Workers.MarksAreFenced | internal/adapter/repository/postgres/outbox_repository.go:77-154 | a mark takes effect if and only if the row carries the worker's lock; it is then the first under that lock, which is gone for good |
| Workers.MarksConclude | internal/outbox/processor.go:106-139 | over every run an effective mark after a success leaves the event processed at its stamp with its payload erased, after a refusal failed, after an error pending until its delay below ten attempts and failed from ten on; any other mark changes nothing |
| Workers.ClaimsTakeWhatIsFree | internal/adapter/repository/postgres/outbox_repository.go:24-54 | a claim takes an available row that is unlocked or was locked more than 60 s before, first by availability and then by creation, and hands exactly that row to the worker |
| Workers.SupersededMarkChangesNothing | internal/adapter/repository/postgres/outbox_repository.go:77-154 | once its event's row does not carry a worker's lock any more, that lock is on no row ever again and a mark under it, however late, changes nothing |
| Workers.ClaimsAreSpread | internal/outbox/processor.go:126 | over all workers n claims of one event span at least (n - 1) * 3.75 s |
| Workers.BackoffSpans | internal/outbox/processor.go:106-166 | without superseded claims the claims keep the least backoff, ten of them span 1207.5 s at least, and the scheduled backoff is 2012.5 s at most |
| Workers.LeasesHold | internal/adapter/repository/postgres/outbox_repository.go:24-37 | no claim takes a row from a worker before its lease has ended, however slow the workers are |
| Workers.LeaseExclusion | internal/outbox/processor.go:90-140 | if the time from asking to the start of the work context plus the work timeout is at most the lease, no two workers are at work on one event at once and no mark of a worker at work is refused, whenever it was stamped |
| Drain.RoundShrinksWork | internal/outbox/processor.go:106-139 | a claim with its mark strictly decreases the sum of max(1, 10 - attempts) over pending events |
| Drain.RoundsAreBounded | internal/outbox/processor.go:106-139 | there are never more claims with their marks than that sum |
| Drain.SomethingIsClaimable | internal/adapter/repository/postgres/outbox_repository.go:24-37 | while an event is pending, some claim succeeds once time has passed |
| Drain.EventsTerminate | internal/outbox/processor.go:106-139 | for every run, whatever the handlers return: it has at most as many claims as there was work, it cannot go on exactly when every event is processed or failed, and until then it leads to a run that cannot |
| Drain.RoundClearsTheWay | internal/adapter/repository/postgres/outbox_repository.go:24-54 | a claim of another event takes exactly that one out of the events ahead of a waiting one |
| Drain.OvertakingIsBounded | internal/adapter/repository/postgres/outbox_repository.go:24-54 | an event that could be claimed is passed over at most as often as there were events ahead of it |
| Overtaking.OvertakingIsBounded | internal/adapter/repository/postgres/outbox_repository.go:24-54 | over every interleaving of workers with crashes and lost leases, the claims asked for while an event could be claimed and is not are at most the events ahead of it and the claims superseded meanwhile |
| Dispatch.LinkCarriesToken | internal/handler/event/dispatcher.go:97 | the `token` parameter of a link is the raw token, for every token text |
| Dispatch.LinksWorkExactlyFor | internal/handler/event/dispatcher.go:49-97 | links work for two different tokens if and only if the base URL holds neither `?` nor `#` |
| Dispatch.LinkIs | internal/handler/event/dispatcher.go:97 | the text of a link |
| Dispatch.TrimRightIs | internal/handler/event/dispatcher.go:49 | the base URL without the slashes at its end |
| Dispatch.HandleAnswers | internal/handler/event/dispatcher.go:53-111 | case by case which event is refused for good, worth another try or a success, and which mail leaves; for a row that is live the answer is the sender's |
| Dispatch.Dispatcher.Handle | internal/handler/event/dispatcher.go:53-112 | which outcomes succeed, are retried or are given up, and which message leaves |
| Dispatch.Processor.MarkResult | internal/outbox/processor.go:106-137 | the mark that follows each result and the answer; a mark that is done leaves the event processed, failed, or pending until its delay |
| Dispatch.Processor.ProcessOne | internal/outbox/processor.go:90-140 | no event, a failed claim, or one claim, one handling and one mark with its answer; a success leaves the event processed, a refusal or the tenth error failed, any other error pending until its delay |
| Delivery.RunKeepsInv | internal/handler/event/dispatcher.go:62-112 | rows, events, workers and mail stay linked over every run with any number of workers, crashes and retries |
| Delivery.OneEventPerVerification | internal/service/auth/service.go:428-454 | every verification has exactly one event and every event one verification |
| Delivery.PayloadNamesTheRow | internal/handler/event/dispatcher.go:62-84 | an unprocessed event names its row and its owner's address, and reading it for delivery never reports the row missing |
| Delivery.EndToEnd | internal/handler/event/dispatcher.go:62-112 | a processed event whose verification is still unused, unrevoked and unexpired has had its link mailed to its owner |
| Delivery.FailureNeedsTenAttempts | internal/outbox/processor.go:107-122 | an event of the service fails only after ten attempts |
| Delivery.LinkRoundTrip | internal/service/auth/service.go:365-454 | the link of every mail carries a token that is not empty and leads back to one row of its recipient; confirming with it uses exactly that row and succeeds if and only if the row is live and its user unverified |
| DeliveryRuns.TokenConfirms | internal/adapter/repository/postgres/auth_repository.go:190-231 | in every reachable world the token of an unsettled row of an unverified user confirms before the row's creation plus the lifetime, and is expired from then on |
| DeliveryRuns.IssuedRowIsUsable | internal/service/auth/service.go:407-454 | a registration or resend that takes effect issues a row of its own stamp that lasts one lifetime, is live and is confirmed by its token, and an event that may be claimed at once |
| DeliveryRuns.ReadAnswers | internal/handler/event/dispatcher.go:76-84 | a failed read is worth another try, a settled row is a success without a mail, any other row is handed on |
| DeliveryRuns.SendAnswers | internal/handler/event/dispatcher.go:86-111 | an expired row is a success without a mail; otherwise exactly the row's link goes to its owner unless lost, and the worker goes on to mark a success if and only if the sender says so |
| DeliveryRuns.LiveEventCanBeDelivered | internal/outbox/processor.go:90-140 | from every reachable world six steps without a failure mail a live event whose turn it is and process it |
| DeliveryRuns.RegistrationIsMailed | internal/service/auth/service.go:337-362 | from a registration to the mail and the processed event in a service without failures |
| DeliveryRuns.FailureMeansUnmarked | internal/outbox/processor.go:106-139 | once the mark of a claim whose mail was handed over takes effect the event is processed; an event fails only if that mark was lost for every mail of it handed over |
| DeliveryRuns.DeliveredEventMayFail | internal/outbox/processor.go:106-139 | that condition is needed: nine workers that deliver and crash and a tenth whose mail is lost leave a failed event |

## Left out

- HTTP handlers, middleware, command-line entry points, configuration, logging, observers, shutdown: wiring.
- Validation and normalisation of addresses, passwords and device names; addresses reach the model normalised and not empty.
- AuthService.Service.Login: starts after the checks of input, credentials and verified address (lines 236-271 of `internal/service/auth/service.go`), which only refuse.
- VerificationService.Service.Register: starts after validation and password hashing (lines 322-335), which only refuse.
- VerificationService.Service.ResendVerification: starts after the validation of the address (lines 376-380), which only refuses.
- Argon2 and password hashing; SHA-256, AES-GCM and random sources themselves, which are parameters.
- The JSON library: a payload is a value, malformed or not, and a cached pair is kept as a value.
- `uuid.Parse` accepts spellings other than the canonical one; `Codec.ParseUuid` reads the canonical one, which is all that is ever stored. `Verifications.Lower` folds ASCII letters only.
- Device names, addresses of clients, `last_seen_at` and `password_hash`: stored, never decided upon.
- SQL and Redis engines: only row effects, row locks, unique keys, commit and rollback. Transactions on one user are serialised by the lock on the user row and are one step each.
- A transaction that waits for another's uncommitted unique key: the writes and the commit of `ExtendSession` are one step, so such a wait does not occur in the model.
- An entry of a Redis store is live while the time is before its deadline. The client's rounding of lifetimes to milliseconds and its meaning of a lifetime of zero are not modelled; the service never passes a lifetime that is not positive, which the stores require.
- ServiceRuns.CacheTransparency: each service call is one instant, as in ServiceRuns.CacheWithLostWrites and ServiceRuns.AccessTokenBound. The code does not order one call's cache write against another call's commit, and nothing is claimed for calls that overlap; `RefreshProtocol` covers overlapping refreshes for idempotence only.
- Rounding of timestamps to microseconds in the database, and of binary floating point in `retryDelay`; the draw is a real number.
- The polling loop and timers of `Processor.Run`: workers act at any time.
- `Workers`, `Overtaking`, `ExtendTransactions`, `RefreshProtocol` and `Delivery` are state machines over values rather than classes, because they interleave the steps of many callers; their steps are built from the functions that specify the class methods.
- The parsing of a URL beyond its query (host and port, path escapes), and query parameters in a form body.
- Rows locked by other statements at the moment of a claim are a parameter of `ClaimNext`.
- `Refresh`, `Login` and `processOne` are split into two or three methods each, without a change of order.
- The in-memory repository, the user service, `JWTManager` and the chat, topic and member tables.
