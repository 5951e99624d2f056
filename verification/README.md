# Vili: a verified model of its stateful core

Vili is a chat backend with a command-line client. Most of it is HTTP plumbing; a few small pieces
hold state that many requests, goroutines or processes touch at once, and make promises about whole
runs. This project models those pieces in Dafny and proves the promises. `dafny verify dfyconfig.toml`
checks everything.

## What is modelled

**Refresh-token rotation** (`RefreshStore`, `Rotation`, `RotationInvariant`, `RotationTheorems`,
`RotationChecks`, `RotationOwner`, `RotationAlone`, `RotationSecrecy`, `RefreshHandler`). The server follows the rotation pattern of section 5.2.2.3 of RFC 6819: every
refresh replaces the token, and presenting a used one revokes its whole family. `Rotation` is the
protocol: a token table, requests with a program counter each, and one step per store call. Events
that are not possible in a state leave it alone, so any list of events is a run, and the theorems hold
for all of them, with any number of requests in flight. Store faults (reported with or without having
taken effect) and lost responses are events too; a theorem that needs store calls to succeed says whose.
`RefreshHandler` holds the handlers as methods that run the statements in order, with arbitrary other
events between them, each shown to be a run of the protocol.

**Silent renewal in the client** (`CliRenewal`, `CliRenewalProof`, `CliTurns`, `CliDoubleRenewal`,
`CliClient`).
Any number of threads share one client object and its renewal lock; they are composed with the whole
server protocol. `CliClient` has the client's methods, again with everything else in between.

**Rate limiter** (`TokenBucket`, `Limiter`, `LimiterProof`, `LimiterMemory`). Token buckets over exact
arithmetic, the bounded map with idle and batch eviction, a refinement against a limiter that never
forgets, and a bound on memory with overlapping requests.

**WebSocket hub** (`Mailbox`, `Hub`, `HubProof`, `HubDelivery`, `Connection`). The room sets and the
per-user counters, over all runs of the connection lifecycle, and what reaches each client's queue when
broadcasts, joins, drops and closes overlap.

**History** (`History`, `Paging`) and **polling chat** (`Polling`, `PollingProof`). The page query, the
backwards walk, and the chat loop that polls, each with the exact condition under which nothing is lost.

**Terminal sanitizer** (`Sanitizer`). The byte automaton, and a grammar of what it strips that does not
mention the automaton.

**Schema migration** (`MigrationNames`, `Migrate`). Any number of runs over one database, interleaved,
each of which may fail or stop anywhere, and each with its own list of files.

## Assumptions

- Each repository call is one atomic step.
- Generated ids and token strings are fresh, and hashing is injective. A generated string can be
  presented only after it was sent in a 200; any other string matches no row.
- In the composition with the client: renewal is configured, nobody else holds this session's tokens,
  the answer of a refresh that took effect reaches the client, and no refresh is abandoned before the
  server has finished with it. A client that gives up on a slow refresh (the timeout at
  `internal/cli/client.go:50`) and posts the same token again is a double use: if both requests get past
  the checks, `RotationTheorems.DoubleUseRevokes` says that the family is revoked.
- Bearer tokens carry no unique id, so two issued in the same second may be equal; the model lets any
  new access token equal the old one.
- `golang.org/x/time/rate` is the usual lazily refilled bucket; cancelling a reservation that is already
  due gives nothing back. The clock does not run backwards.
- A map is iterated in any order: batch eviction may pick any keys, a broadcast any order.
- A directory holds no two files of one name.
- SQL gives rows with equal timestamps no fixed order; the model keeps one, the same for every query.
- A room's history only grows at its end, in timestamp order.

## Where code and comments disagree

- `internal/cli/client.go:39-41` says that threads which "both hit a 401 (or an expired token)" rotate
  only once. `do` reads the token again after the 401 (line 84), and `ensureFreshToken` reads it at its
  own time (line 151), so a thread that reads after another one has stored its new token renews again.
  `CliDoubleRenewal` has such a run for two threads with a 401 (`CanRenewTwice`), for one with a 401 and
  one with an expiring token (`CanRenewTwiceMixed`), and for two with an expiring token
  (`CanRenewTwiceTorn`). `CliTurns` says exactly when, for any run and any number of threads. The further
  rotation is harmless: it presents the new refresh token (`CliRenewalProof.RenewalNeverTripsReuse`).
- `internal/ratelimit/ratelimit.go:126` says asking does not consume a token. It does when one is there
  and the clock moves on before the cancellation (`Limiter.TokenLostIff`); after a refusal that takes an
  eviction or a refill in between.
- `internal/httputil/ratelimit.go:94-96` says it rounds up; it rounds to the nearest second
  (`TokenBucket.WaitSufficesIff`, `TokenBucket.WaitAlwaysSufficesIff`).
- `internal/ratelimit/ratelimit.go:19-23` says a client never loses its bucket mid-backoff. That holds
  exactly when the burst refills within the idle limit (`LimiterProof.InvisibleIff`).
- `internal/ws/hub.go:77-86` decrements the counter of a client that is not in the room
  (`HubProof.LeaveKeepsIff`); the lifecycle in `run` never calls it so.
- Paging loses messages that share a timestamp across a page boundary (`Paging.WalkCompleteIff`,
  `Paging.TiesAreLost`), and
  polling loses messages when more than a page arrives between polls or when one carries the timestamp
  of the newest message seen (`PollingProof.ChatIsExactIff`, `PollingProof.OneTooMany`).
- `internal/store/migrate.go:13-14` says files are applied in filename order. Within a run they are;
  over deployments that holds exactly when what a new list adds sorts after all that was applied
  (`Migrate.UpgradeInFileOrderIff`, `Migrate.LateFile`).
- The comment on final bytes at `internal/cli/cli.go:368` follows ECMA-48, but the code lets any other
  byte stand before the final one (`Sanitizer.StandardIff`, `Sanitizer.NotStandard`).

## Model

| member | source | states |
|---|---|---|
| RotationTheorems.RevocationIsFinal | internal/user/handler.go:178-220 | Once a family is revoked, in every continuation: no consume on it succeeds, no request obtains a new pair from it, and rows inserted later are uncommitted, unusable and unknown to clients |
| RotationTheorems.LinearChain | internal/user/handler.go:203-222 | In every reachable state the committed tokens of a never-revoked family form one duplicate-free chain from the login root, exactly the last unconsumed, links as recorded, all still in the table unless some store call failed; other rows of the family were never delivered |
| RotationTheorems.OneUsableToken | internal/user/handler.go:154-223 | A family never has two tokens the server would accept, and a revoked one has none, store faults included |
| RotationTheorems.OneSuccessPerToken | internal/user/repository.go:133-154 | Over any run at most one request obtains a new pair for one token, store faults included |
| RotationTheorems.DoubleUseRevokes | internal/user/handler.go:178-219 | If two requests for one token both reach the reuse branch or the minting step, then once both finish, and if no store call of these two failed, the family is revoked and holds no usable token, whatever was refreshed or failed for others meanwhile |
| RotationTheorems.ResponseIsTruthful | internal/user/handler.go:203-222 | A 200 carries the recorded successor of the token presented; after a reuse verdict whose revocation reported success no token of the family is usable |
| RotationTheorems.ReuseVerdictHolds | internal/user/handler.go:180-217 | A reuse verdict means the family is gone unless a store call of that very request failed; line 214 ignores a failed revocation |
| RotationTheorems.StepKeeps | internal/user/handler.go:157-271 | Every event keeps the protocol invariant, and history only grows |
| RotationTheorems.RunKeeps | internal/user/handler.go:157-271 | So does every run |
| RotationTheorems.ReachableInv | internal/user/handler.go:143-271 | Every state reachable from an empty table satisfies the invariant |
| RotationTheorems.NoLateWins | internal/user/handler.go:210-222 | A request that won on a revoked family had won before the revocation |
| RotationChecks.ExchangeWasEarned | internal/user/handler.go:157-222 | Over any run, a request that obtained a new pair had asked with the string of the token it exchanged; after that the table held this token, unconsumed; and later still, before the new token existed, the clock had not passed its expiry. Its user is known |
| RotationChecks.RefusalHasCause | internal/user/handler.go:168-219 | Over any run, a refused request had presented a string no row carried, or that of a row that had expired or has no known user; one told of reuse had presented the string of a row that was consumed when found or could not be consumed later |
| RotationChecks.FailedIff | internal/user/handler.go:168-244 | Over any run, a request is answered 500 if and only if one of its own store calls failed, other than the revocation after a lost race and the lookup and the revocation of logout |
| RotationChecks.LogoutIsFinal | internal/user/handler.go:239-244 | Once logout has deleted the digest, no lookup ever finds the string again, whatever follows |
| RotationOwner.FamilyHasOneUser | internal/user/handler.go:203-258 | All rows a family ever has belong to one user, however late they are inserted |
| RotationOwner.StepKeepsRow | internal/user/handler.go:256-261 | Whatever step is taken, a new row lasts for the refresh lifetime from now and can be consumed, and a row that stays keeps its user, family, digest and expiry |
| RotationOwner.ExpiryIsFinal | internal/user/handler.go:188-191 | Once the clock has passed its expiry a token cannot be used again, whatever is done |
| RotationAlone.LoneRefreshSucceedsIff | internal/user/handler.go:157-223 | A request that is left alone obtains the next token of the chain if and only if the row of its string is there, unconsumed, not expired and its user known; it revokes the family, and touches no other, if and only if that row was consumed; otherwise it is refused and everything stays as it was |
| RotationAlone.LoginCanRefresh | internal/user/handler.go:143-223 | In any state a known user can log in and exchange the token at once, and the chain then has two tokens |
| RotationInvariant.FoundIsPresented | internal/user/repository.go:115-131 | A lookup finds only the row minted with the string presented, and that row is committed |
| RotationInvariant.ConsumableIsLast | internal/user/repository.go:136-154 | A consume can succeed only on the last token of a family that was never revoked |
| RotationInvariant.EffectKeeps | internal/user/repository.go:98-177 | What any step does to the shared state keeps the state invariant |
| RotationInvariant.NextKeeps | internal/user/handler.go:157-245 | Where any request goes next is again consistent with the state |
| Rotation.RunConcat | internal/user/handler.go:157-245 | Runs compose |
| RefreshStore.Lookup | internal/user/repository.go:115-131 | The row found carries the digest; with unique digests, none found means none exists |
| RefreshStore.Store.InsertRefreshToken | internal/user/repository.go:98-111 | A lookup of the digest then finds the new row, unconsumed and with the given user, family and expiry; no other row is touched |
| RefreshStore.Store.RefreshTokenByHash | internal/user/repository.go:113-131 | The row with the digest, or not found |
| RefreshStore.Store.ConsumeRefreshToken | internal/user/repository.go:133-154 | Succeeds exactly on a present, unconsumed row and links it; otherwise reports it and changes nothing |
| RefreshStore.Store.RevokeRefreshFamily | internal/user/repository.go:156-165 | No lookup finds the family and none of its rows can be consumed any more; every other row stays as it was |
| RefreshStore.Store.RevokeRefreshToken | internal/user/repository.go:167-177 | A lookup of the digest finds nothing; every other row stays as it was, and an unknown digest changes nothing |
| RefreshHandler.Handler.Refresh | internal/user/handler.go:157-223 | With any events of others between its statements: a string without a row is refused, a consumed one is reuse and the family is gone, one expired when the clock is read or without a known user is refused, and any other is exchanged if and only if the row can still be consumed at the conditional update; what is exchanged or reported is the token presented. One run of the protocol |
| RefreshHandler.Handler.Judge | internal/user/handler.go:178-222 | A used token revokes, an expired one is refused, so is one of an unknown user, and any other is exchanged exactly if it can still be consumed; a refusal changes nothing |
| RefreshHandler.Handler.Rotate | internal/user/handler.go:203-222 | Minting, consuming and answering, or revoking, exactly as the token can be consumed at that moment |
| RefreshHandler.Handler.MintPair | internal/user/handler.go:247-271 | The new row is the given user's, in the given family, unconsumed, and lasts for the refresh lifetime from the moment of its insertion; no other row is touched |
| RefreshHandler.Handler.LookUp | internal/user/handler.go:168-176 | What is found is the row of the string presented; nothing found means no row has its digest; nothing is changed |
| RefreshHandler.Handler.Check | internal/user/handler.go:178-191 | Expired is exactly that the clock has passed the expiry; reuse is checked first |
| RefreshHandler.Handler.LoadUser | internal/user/handler.go:193-201 | The request goes on exactly if the user is known |
| RefreshHandler.Handler.Consume | internal/user/handler.go:210-220 | Succeeds exactly if the row can be consumed then, which decides between answering and revoking |
| RefreshHandler.Handler.RevokeFamily | internal/user/handler.go:211-216 | The family is revoked and no row of it is left, for reuse, race and logout |
| RefreshHandler.Handler.RevokeToken | internal/user/handler.go:239-243 | No row with the digest is left; ends logout |
| RefreshHandler.Handler.Respond | internal/user/handler.go:222-222 | A new token becomes presentable when it is answered |
| RefreshHandler.Handler.Logout | internal/user/handler.go:228-245 | Afterwards no row has the digest of the string presented, and if one had it when it was looked up, its family is revoked and holds no usable token, whatever others did in between. One run of the protocol |
| RefreshHandler.Handler.StartSession | internal/user/handler.go:143-152 | When the tail of login answers, the family is new, holds exactly this token, unused, belonging to this user and lasting for the refresh lifetime from its insertion, and no other request works on it. One run of the protocol |
| RotationSecrecy.SecretIsSafe | internal/user/handler.go:143-152 | As long as one request keeps a new token to itself, nothing any other request does touches its family |
| RefreshHandler.Handler.WorldIsReachable | internal/user/handler.go:157-245 | The state after any handler method is reachable, so the theorems hold of it |
| CliRenewalProof.RenewalNeverTripsReuse | internal/cli/client.go:70-193 | Until logout, with any threads and other sessions: the family is never revoked, no request for it reaches the reuse branch, and whenever the lock is free the client holds the unconsumed end of the chain |
| CliRenewalProof.NoTokenPostedTwice | internal/cli/client.go:166-182 | When a thread is about to post a refresh, its token was never exchanged, no request has it in hand, and none is about to look it up |
| CliRenewalProof.LoginStartsSession | internal/user/handler.go:143-152 | What StartSession leaves behind is the start of a session, so the theorems about sessions apply to every login |
| CliRenewalProof.ExecuteKeeps | internal/cli/client.go:70-193 | Every run of the composed system keeps the invariant until logout |
| CliRenewalProof.ActionKeeps | internal/cli/client.go:70-193 | Every single action keeps it |
| CliRenewalProof.ServerKeeps | internal/user/handler.go:157-245 | Every permitted server event keeps it |
| CliRenewal.ExecuteConcat | internal/cli/client.go:70-90 | Runs of the composed system compose |
| CliTurns.TurnPostsIff | internal/cli/client.go:79-88 | In any run, a thread that was refused, or that found the token expiring, posts a refresh if and only if Token, when compared under the lock, is what it was when first read, whatever other threads do before, between and after |
| CliTurns.RenewedTwiceIff | internal/cli/client.go:39-41 | Over any run, with any number of threads and among any selection of turns after a 401 or for an expiring token, more than one refresh is posted if and only if two of them each find Token as first read |
| CliTurns.PostedTwiceIff | internal/cli/client.go:39-41 | The same for all refreshes of a run together |
| CliTurns.TurnPostsIffNoStore | internal/cli/client.go:166-193 | If new access tokens differ from old ones, a turn of either kind posts if and only if no thread stored a token between its first read and its comparison |
| CliTurns.RotatesOnceIff | internal/cli/client.go:39-41 | Then the comment holds of a run, whichever turns it is read to speak of, exactly when of any two of these one has a store between first read and comparison |
| CliTurns.ComparisonEndsATurn | internal/cli/client.go:79-88 | Every comparison ends a turn that began in the run, after a 401 or with an expiring token |
| CliTurns.OneRenewalPerStaleToken | internal/cli/client.go:159-165 | Two refreshes are posted for the same stale token only if no renewal succeeded in between |
| CliDoubleRenewal.CanRenewTwice | internal/cli/client.go:39-90 | From the start of any session there is a run in which two threads refused with one access token both post a refresh for it |
| CliDoubleRenewal.CanRenewTwiceMixed | internal/cli/client.go:39-90 | Likewise with one thread refused and one that finds the same token expiring |
| CliDoubleRenewal.CanRenewTwiceTorn | internal/cli/client.go:147-189 | Likewise with two threads that find the token expiring, one of them between the stores of Token and TokenExpiry |
| CliDoubleRenewal.RenewAlone | internal/cli/client.go:166-193 | An undisturbed renewal extends the chain by one and stores the new pair |
| CliClient.Client.Do | internal/cli/client.go:70-90 | The call waits exactly if a renewal waits, and is over with the session exactly if a renewal was refused; otherwise it returns what the last attempt it sent was answered, which is the second exactly if the first got a 401. Which actions of the thread were taken in which order; with any other actions in between, a run of the composed system |
| CliClient.Client.EnsureFreshToken | internal/cli/client.go:147-152 | No renewal is attempted exactly when the token is good for more than thirty seconds; the actions taken; a renewal leaves the answer stored |
| CliClient.Client.RenewIfStale | internal/cli/client.go:166-182 | The actions taken for each way it ends; a call that returns has released the lock, and after a renewal the client holds what the server answered |
| CliClient.Client.Exchange | internal/cli/client.go:174-181 | An answered refresh is stored as a whole while the lock is held, a refused one changes nothing |
| CliClient.Client.UnderLock | internal/cli/client.go:170-181 | Renewal is skipped exactly when the token differs from the stale one |
| CliClient.Client.PostRefresh | internal/cli/client.go:170-176 | The refresh is posted exactly when the token is still the stale one, with the refresh token held now |
| CliClient.Client.ApplySession | internal/cli/client.go:186-193 | Although the three fields are stored one after another with others looking in between, at the end all three are the new ones and the lock is still held |
| CliClient.Client.Replay | internal/cli/client.go:79-88 | After a 401: the re-read, the actions of the renewal, and, unless that failed or waits, the second attempt |
| CliClient.Client.SendFirst | internal/cli/client.go:74-78 | One attempt is sent and answered; only a 401 leads on |
| CliClient.Client.HoldsTheLiveToken | internal/cli/client.go:159-165 | Whenever the lock is free the client object holds the token the server will accept |
| LimiterProof.IdleEvictionInvisible | internal/ratelimit/ratelimit.go:19-23 | If the burst refills within the idle limit, a key spared by batch eviction gets the answers of a limiter that never forgets |
| LimiterProof.InvisibleIff | internal/ratelimit/ratelimit.go:19-23 | Idle eviction cannot be noticed if and only if burst <= rps * ttl |
| LimiterProof.AdmissionBound | internal/ratelimit/ratelimit.go:67-80 | In any window at most burst + rps * length requests of a key are admitted, across evictions and re-creations |
| LimiterProof.RunAgrees | internal/ratelimit/ratelimit.go:67-162 | The simulation between the stored bucket and the remembered one holds along any run |
| LimiterProof.IdealBound | internal/ratelimit/ratelimit.go:67-80 | The bound for a bucket that is never forgotten |
| LimiterMemory.MemoryBound | internal/ratelimit/ratelimit.go:61-119 | With at most c <= 5000 requests inside, the map plus the missing keys of those requests never exceeds 50000 + c |
| LimiterMemory.RoomMade | internal/ratelimit/ratelimit.go:82-106 | Eviction leaves less than capacity, or a batch less than there was |
| Limiter.Limiter.Allow | internal/ratelimit/ratelimit.go:65-80 | The answer and the new map; the key was used now; no other bucket changes, and none is deleted unless the key is new and the map holds 50000 |
| Limiter.Limiter.EvictOldestLocked | internal/ratelimit/ratelimit.go:82-106 | Every bucket idle for more than ten minutes goes; others only if that is not enough, and then exactly a batch of them |
| Limiter.Limiter.EvictBatch | internal/ratelimit/ratelimit.go:93-105 | Exactly 5000 buckets are removed, whichever keys come first |
| Limiter.Limiter.EvictIdle | internal/ratelimit/ratelimit.go:153-162 | Exactly the buckets not used for more than ten minutes are removed |
| Limiter.Limiter.RetryAfter | internal/ratelimit/ratelimit.go:108-128 | The exact delay of the key's bucket; the bucket afterwards, used now; a missing key is inserted without a capacity check and no other bucket is touched |
| Limiter.TokenLostIff | internal/ratelimit/ratelimit.go:121-127 | Asking takes a token exactly when there was one and the cancellation comes late |
| Limiter.Limiter.MaybeLimit | internal/httputil/ratelimit.go:88-105 | Without a key everything passes; a refusal advertises the rounded delay of the bucket found when asking, whatever happened to the map since the refusal; at least one second and short by less than half a second |
| TokenBucket.AdmittedFromDelayOn | internal/ratelimit/ratelimit.go:108-128 | A refused request is admitted later if and only if it waits at least the delay |
| TokenBucket.WaitIsNearlyRight | internal/httputil/ratelimit.go:94-99 | The advertised wait is short of the delay by less than half a second |
| TokenBucket.WaitSufficesIff | internal/httputil/ratelimit.go:90-101 | Waiting as advertised suffices exactly when rounding loses no fraction |
| TokenBucket.WaitAlwaysSufficesIff | internal/httputil/ratelimit.go:90-101 | It suffices for every bucket that requests can lead to if and only if the rate is at least one per second; below, a used-up burst is the counterexample |
| TokenBucket.LevelGrows | internal/ratelimit/ratelimit.go:74-79 | Between two moments a bucket gains at most what the rate allows |
| TokenBucket.IdleIsFull | internal/ratelimit/ratelimit.go:19-23 | A bucket idle long enough is full |
| HubProof.RegistryIsConsistent | internal/ws/hub.go:46-161 | Over any lifecycle run each counter is the number of the user's connections over all rooms, no zero counts, no empty rooms, the cap holds, and a closed hub stays empty |
| HubProof.JoinKeepsIff | internal/ws/hub.go:46-66 | Joining keeps the representation exactly when it is refused or the client was not there |
| HubProof.LeaveKeepsIff | internal/ws/hub.go:68-87 | Leaving keeps it exactly when the client is in the room, the room does not exist, or its user has no connection |
| HubProof.LeaveUndoesJoin | internal/ws/hub.go:46-87 | Leaving after joining restores the registry |
| HubProof.LobbyStaysOk | internal/ws/client.go:56-84 | Every lifecycle run keeps registry, phases and cap consistent |
| HubProof.CloseKeeps | internal/ws/hub.go:138-161 | Closing keeps the representation |
| Hub.Hub.Join | internal/ws/hub.go:46-66 | Refused exactly when closed or at the cap; the new registry |
| Hub.Hub.Leave | internal/ws/hub.go:68-87 | The new registry, counter decrement included |
| Hub.Hub.Snapshot | internal/ws/hub.go:92-98 | The room's members, each once |
| Hub.Hub.Broadcast | internal/ws/hub.go:89-103 | Every member is offered the event once, nobody else is touched |
| Hub.Hub.ConnCount | internal/ws/hub.go:105-112 | The number of the user's live connections over all rooms; below the cap exactly when Join would accept |
| Hub.Hub.Presence | internal/ws/hub.go:121-136 | The usernames in the room, each once |
| Hub.Hub.Close | internal/ws/hub.go:138-161 | The hub is closed, the registry emptied, and every client in it closed |
| Hub.Hub.SetMaxConnsPerUser | internal/ws/hub.go:38-44 | Only the cap changes |
| HubDelivery.NoSilentGap | internal/ws/hub.go:89-103 | With overlapping broadcasts: queues stay bounded; what an open client not being dropped has received and queued is exactly what the run sent it, in order; nothing is sent before joining or for another room |
| HubDelivery.SentOnce | internal/ws/hub.go:89-103 | A broadcast sends its event once to each client of its snapshot it has got to, and never to anybody else |
| HubDelivery.SnapshotIsRoom | internal/ws/hub.go:89-98 | A broadcast is for exactly the clients that were live in the event's room when it began, whoever joins or leaves later |
| HubDelivery.DoKeeps | internal/ws/client.go:148-176 | Every single act keeps the delivery invariant |
| Mailbox.Client.SendNow | internal/ws/client.go:148-158 | With fewer than 32 events queued the event is enqueued and the client stays open; otherwise it is dropped and the client closed |
| Mailbox.Client.Close | internal/ws/client.go:160-176 | The client is done afterwards, however often it is called in sequence |
| Mailbox.Client.WritePump | internal/ws/client.go:122-135 | Nothing is lost or reordered between queue and connection; it stops at the first failed write or end of context, or when empty, and nowhere else |
| Mailbox.OfferKeeps | internal/ws/client.go:148-158 | Enqueuing or starting to drop keeps the queue invariant |
| Mailbox.DequeueKeeps | internal/ws/client.go:124-134 | So does taking an event off the queue |
| Connection.Run | internal/ws/client.go:56-84 | An undisturbed connection leaves the registry as it found it, and everyone present is offered its arrival and then its departure |
| Connection.Arrive | internal/ws/client.go:64-73 | A refused client is closed and offered nothing; an accepted one is offered who is in the room, then its own arrival, and is announced to the others |
| Connection.Depart | internal/ws/client.go:74-77 | Those who remain are offered the departure; the client itself is not |
| Paging.WalkCompleteIff | internal/message/repository.go:79-121 | The backwards walk returns the whole history, in order, each message once, if and only if no page boundary falls between equal timestamps |
| Paging.PagingIsComplete | internal/message/handler.go:146-174 | With distinct timestamps and any limit the server accepts, the pages together are in order and hold every message of the table that is in the room, as often as the table, and no other |
| Paging.TiesAreLost | internal/message/repository.go:87-95 | Two messages of one moment, read one at a time: the walk returns only one |
| Paging.WalkProgress | internal/message/repository.go:87-95 | Every page moves the cursor strictly back, so the walk ends |
| Paging.PageIsNewest | internal/message/repository.go:79-95 | A page is the newest messages strictly older than the cursor, as many as the limit allows; without a cursor or with the zero time, the newest of all |
| Paging.DistinctIsClean | internal/message/repository.go:87-95 | Distinct timestamps make every boundary clean |
| Paging.GrowingWalkCompleteIff | internal/message/repository.go:87-95 | With messages posted during the walk, it returns the room as it was at the first page, whole under the same condition |
| Paging.GrowthIsInvisible | internal/message/repository.go:89-91 | From any page on, a walk over a growing room returns what it would if the room had stood still |
| History.Repository.ListByRoom | internal/message/repository.go:63-122 | The newest messages before the cursor, oldest of them first, each of them of this room and in the table; an unknown room is an error |
| History.Repository.List | internal/message/handler.go:134-185 | Limit, cursor, membership and room errors in that order, else the page, made of messages of this room only |
| History.ReverseInPlace | internal/message/repository.go:117-120 | The array is reversed |
| History.ReversedRowsArePage | internal/message/repository.go:79-121 | Newest first with a limit, then reversed, is the last page in order |
| History.HistoryIsComplete | internal/message/repository.go:81-94 | The history is ordered and holds every message of the table that is in the room, as often as the table, and no other |
| History.ParseLimit | internal/message/handler.go:201-218 | Fifty for an empty string; an integer is kept from 1 to 100, and below or above becomes 1 or 100; anything else is refused |
| History.AtoiReadsNumerals | internal/message/handler.go:207-210 | A decimal numeral, with leading zeros and either sign, is read as the integer it denotes exactly if that fits 64 bits |
| History.AtoiRefuses | internal/message/handler.go:207-210 | Nothing is read but digits after at most one sign |
| PollingProof.ChatIsExactIff | internal/cli/chat.go:27-171 | The screen holds the history from the first opening message on, each message once and in order, if and only if at most a page arrives between polls and nothing new carries the newest timestamp already seen |
| PollingProof.OneTooMany | internal/cli/chat.go:36-42 | Twenty-one messages before the first poll of an empty room: the first is never shown |
| PollingProof.ChatRepeatsNothing | internal/cli/chat.go:103-171 | Whatever is missed, nothing is repeated or out of order |
| PollingProof.NewsExactIff | internal/cli/chat.go:131-171 | The same for what the polls add after any starting point, an empty room included |
| PollingProof.PollStep | internal/cli/chat.go:149-171 | One poll shows a tail of what is new and leaves the cursor at the newest message |
| PollingProof.PolledExactly | internal/cli/chat.go:62-158 | The histories polled are, in order and once each, those of the rounds before the first that is cancelled, unreadable, a command, a failed request, interrupted, or a failed poll |
| PollingProof.EndsAsAsked | internal/cli/chat.go:62-158 | That round decides the ending: bye for /quit and interruption, left for a successful /leave, its own error for a failure, and the end of input otherwise or if there is no such round |
| Polling.CmdChat | internal/cli/chat.go:27-60 | Usage, session and history errors, the opening page, then the polling run |
| Polling.RunPollingChat | internal/cli/chat.go:62-96 | What is shown and how the chat ends, for any sequence of inputs, cancellations and failures, as `PollingProof.PolledExactly` and `PollingProof.EndsAsAsked` spell out |
| Polling.HandleChatLine | internal/cli/chat.go:119-158 | How a line ends the chat early, or what its poll shows and where it leaves the cursor |
| Polling.PollAfter | internal/cli/chat.go:160-171 | The messages of the newest page after the cursor; the whole page without one |
| Polling.CursorFrom | internal/cli/chat.go:107-117 | The last timestamp that is set; none exactly when no message has one |
| Polling.FollowAppends | internal/cli/chat.go:149-157 | What is on the screen does not influence what is shown next |
| Sanitizer.SanitizeTerminal | internal/cli/cli.go:325-393 | The output is exactly the text bytes of the input's parse |
| Sanitizer.OutputIsText | internal/cli/cli.go:341-392 | For any parse the automaton writes its text bytes, and ends in the normal state exactly when no sequence is left open |
| Sanitizer.ParseIsParse | internal/cli/cli.go:325-393 | Every input splits into text bytes, controls, escape sequences and at most one unterminated end |
| Sanitizer.ParseUnique | internal/cli/cli.go:325-393 | The split is unique |
| Sanitizer.SequenceAgrees | internal/cli/cli.go:355-389 | The grammar's escape sequences are exactly the shortest ways of the automaton back to normal |
| Sanitizer.OscAgrees | internal/cli/cli.go:372-387 | The same inside an operating-system command |
| Sanitizer.CsiAgrees | internal/cli/cli.go:367-371 | The same inside a control sequence |
| Sanitizer.ConcatIff | internal/cli/cli.go:341-392 | Sanitizing piecewise is sanitizing the whole, for every second piece, if and only if the first leaves no sequence open |
| Sanitizer.SequencesVanish | internal/cli/cli.go:325-326 | An escape sequence outside any other leaves no trace and touches nothing around it |
| Sanitizer.StandardIsCovered | internal/cli/cli.go:367-371 | Every control sequence of section 5.4 of ECMA-48 is one of the sequences stripped |
| Sanitizer.StandardIff | internal/cli/cli.go:367-371 | Of the sequences stripped that begin like one, exactly those are in the standard whose bytes in between are parameter bytes followed by intermediate bytes |
| Sanitizer.NotStandard | internal/cli/cli.go:367-371 | A newline between introducer and final byte is stripped with the sequence and is not in the standard |
| Sanitizer.ThreeBytes | internal/cli/cli.go:355-389 | What becomes of ESC and any two bytes, and when a sequence is left open: a character set designation takes both, [ and ] open longer sequences, any other byte ends it and the next is text again |
| Sanitizer.TitleVanishes | internal/cli/cli.go:372-387 | An operating-system command leaves no trace, whichever way it ends: BEL, ESC and a byte that opens nothing, or a sequence begun inside |
| Sanitizer.UnchangedIffClean | internal/cli/cli.go:344-354 | A string comes through unchanged if and only if it holds only tabs, newlines, the bytes 32 to 126, and those from 128 on |
| Sanitizer.Idempotent | internal/cli/cli.go:325-393 | Sanitizing twice is sanitizing once |
| Sanitizer.OutputIsSafe | internal/cli/cli.go:325-326 | The output is a subsequence of the input without control bytes other than newline and tab, and without DEL |
| Migrate.ExecutedOnce | internal/store/migrate.go:88-113 | Over any interleaved runs on whatever lists of files, each stopping anywhere: no migration is committed twice, and exactly those committed are recorded |
| Migrate.ExecutedInOrder | internal/store/migrate.go:18-66 | If each run's list begins like the newest one, what was committed is a beginning of the sorted list at every point |
| Migrate.CompletedRuns | internal/store/migrate.go:54-66 | A completed run leaves nothing of its list unapplied and reports exactly what was missing when it looked; no migration is reported by two runs |
| Migrate.CompletedRunReportsSuffix | internal/store/migrate.go:54-66 | With lists that extend one another, that is a suffix of its list |
| Migrate.UpgradeInOrderIff | internal/store/migrate.go:13-20 | After an upgrade what was executed is the new list if and only if the old list was a beginning of it |
| Migrate.UpgradeInFileOrderIff | internal/store/migrate.go:13-20 | After an upgrade everything was applied in filename order if and only if what the new list adds sorts after all that had been applied, files removed from the list or not |
| Migrate.LateFile | internal/store/migrate.go:13-20 | A file that sorts before one already applied runs after it |
| Migrate.ListsAreInFileOrder | internal/store/migrate.go:68-86 | Every run's list is in filename order |
| Migrate.HistoryGrows | internal/store/migrate.go:21-66 | No run ever takes a migration back |
| Migrate.NextInOrder | internal/store/migrate.go:54-64 | A turn of a run keeps what was committed a beginning of the newest list |
| Migrate.Database.Migrate | internal/store/migrate.go:18-66 | Over a database in any state, with any events of other runs in between: which error is returned when, and that a failure names a pending version; a completed run returns what was missing and leaves nothing of its list unrecorded; an undisturbed one completes and executes exactly that |
| Migrate.Database.ApplyPending | internal/store/migrate.go:54-66 | The loop is a run of the model; it ends completed, or failed at the version named, which was pending |
| Migrate.Database.ApplyOne | internal/store/migrate.go:88-113 | One transaction: statements and record are committed together or not at all |
| Migrate.BothOrNeither | internal/store/migrate.go:88-113 | A transaction that fails before its commit or records a version again changes nothing; a committed one has both effects, and a lost confirmation is an error although it has |
| Migrate.Database.HoldsEachOnce | internal/store/migrate.go:18-20 | A database that only such runs have worked on holds each migration once, all of them recorded |
| MigrationNames.List | internal/store/migrate.go:68-86 | An error exactly when there is no migration file, else the sorted names |
| MigrationNames.NamesAreSorted | internal/store/migrate.go:68-86 | The names are exactly those of the files, not directories, that end in .up.sql, each once, in lexicographic order |
| MigrationNames.LeqIff | internal/store/migrate.go:81-81 | The order is lexicographic: one name comes no later than another if and only if it is a prefix of it or is smaller at the first position where they differ |
| MigrationNames.NumbersCompareByDigit | internal/store/migrate.go:81-81 | Numbers of equal length count in order, others need not: 10 comes before 9 |
| MigrationNames.VersionsAreDistinct | internal/store/migrate.go:54-55 | No two files have the same version |

## Left out

- HTTP decoding, JSON, response envelopes, routing, middleware order, configuration, metrics, room management and credential validation: settled by reading one branch each.
- RefreshHandler.Handler.Refresh: as a method it has no store faults; the protocol it is a run of has them. The same goes for Logout and StartSession. The empty token, refused before any store call, is not modelled.
- RefreshHandler.Handler.MintPair: the access token and its expiry are not part of the model.
- Failing store calls outside rotation, polling and migration.
- Database isolation below one statement, and the cryptography behind tokens and digests.
- CliClient.Client.Do: which failure other than a 401 an attempt met is not distinguished, and the callback that persists the pair is not modelled.
- LimiterProof.IdleEvictionInvisible: says nothing about a key dropped by batch eviction, which may forget a bucket that is not idle. LimiterMemory covers batch eviction.
- Limiter.Limiter.Allow: taking the token is part of the same step as the map access; LimiterMemory takes them apart for the memory bound. The ticker that starts sweeps and Stop are not modelled; a sweep may happen at any time.
- Rounding of floating-point rates: arithmetic is exact.
- Mailbox.Client.Close: the check and the close of the channel are one step, so idempotence is stated for calls one after another.
- Connection.Run: nothing else happens meanwhile, and the write pump runs until the queue is empty; HubProof and HubDelivery have all interleavings. Reading frames and the typing throttle are not modelled.
- The order in which presence events of different clients arrive, which the code does not promise.
- The client's formatting of the `before` cursor, which drops fractions of a second: paging is stated at the server with exact timestamps.
- Polling.CmdChat: the realtime view and the notices written between messages are not modelled; a line is given as trimmed.
- Sanitizer.SanitizeTerminal: works on bytes; an escape sequence may swallow a byte of a multi-byte character.
- Migrate.Database.Migrate: the SQL inside a migration is not modelled, only whether it was committed.
