# XMiete rental deposits: a verified model

XMiete's reference server keeps rental deposits. A deposit walks through a lifecycle (requested,
identified, pledged, then released, claimed, settled or disputed, and finally closed); while it is
pledged, the bank may have a credential about the pledge issued into the tenant's wallet; when the
deposit leaves that state the credential is revoked, and verifiers learn so from a status endpoint or
from a published bitstring. This project models the server's hard parts in Dafny and proves what its
code and its documentation promise, over all inputs and over all runs.

| files | what they hold |
|---|---|
| `Lifecycle`, `Deposits`, `DepositRequests` | the transition table, the eleven mutating requests split into a reading and a writing phase, the patches; what each request does, from its fields |
| `DepositSafety`, `DepositRuns`, `DepositMoney` | what every interleaving keeps; whole uninterrupted runs: the walk, the negotiation, the money |
| `Sessions`, `SessionStores` | the session table and the four-map index as values, then both stores as objects |
| `StatusList` | the revocation bitstring |
| `World`, `WorldSessions`, `WorldDeposits`, `WorldTheorems` | the running server as one state machine, its invariants, and the theorems over every run |
| `WorldWalks`, `WorldOrigins`, `SessionWindow`, `WorldClosing`, `ClosedYetActive` | where states come from, how long a session can be used, when interleaved histories follow the table, which credentials survive a close, and a run in which one does |
| `Handlers` | repository, index allocator and server as objects, proved against the state machine |
| `WireFormat`, `SdJwt`, `SampleCodec` | the SD-JWT wire format, three splitters, issuing and verifying, and a codec that obeys the laws |
| `JsonArray` | the scanner that takes a JSON array apart |
| `Conformance` | the statutory validator |
| `JwkCoordinates` | elliptic-curve coordinates in a JWK |
| `Basics` | optional values and decimal numerals |

How the state machine is set up. Each handler reads the deposit and decides first, and later writes
under the row lock without checking again. `Handle` and `Issue` are requests that nothing interrupts;
`Read`/`Write`/`Revoke` and `CheckIssue`/`Allocate`/`OpenSession` are the phases of the same requests,
free to interleave with everything else; a wallet's request always comes as `Lookup`, `Build` and
`Redeem`. Theorems over `IsRun` hold for every interleaving, theorems over `IsAtomicRun` for
uninterrupted handlers. UUIDs are fresh and the clock never runs backwards: both are conditions on
which events may happen, not assumptions inside a proof.

## Model

| member | source | states |
|---|---|---|
| WorldTheorems.StatusAndBitsAgree | server/internal/issuance/statuslist.go:44-57 | in every reachable state, the most-significant-first bit that a handed-out credential's own status claim points to is set exactly when the status endpoint says "revoked" (for indices below 131 072), and every set bit belongs to a handed-out, revoked credential |
| WorldTheorems.ServeStatusList | server/internal/api/issuer_handlers.go:289-312 | from any valid store the endpoint publishes 131 072 bits of which exactly those of revoked credentials are set |
| WorldTheorems.RevokedByIndex | server/internal/issuance/session.go:154-179 | because allocated indices are distinct, a credential is reported revoked exactly when its index is among the collected ones |
| WorldTheorems.IssuedWithinQuarterHour | server/internal/api/issuer_handlers.go:80-93 | with uninterrupted handlers, whenever a credential has been issued its deposit is PLEDGED, or the issuing time is at most 900 000 000 000 ns after the moment the deposit left PLEDGED |
| SessionWindow.CodeWindow | server/internal/issuance/session.go:77-117 | over every run and interleaving, the code of a session is exchanged at a moment if and only if that is at most 900 000 000 000 ns after the session was opened and no credential was handed out for it |
| SessionWindow.TokenWindow | server/internal/issuance/session.go:128-139 | the same for redeeming any token that the session's code was exchanged for |
| SessionWindow.UnknownRefused | server/internal/issuance/session.go:111-139 | a code or token that was never handed out changes nothing and is refused |
| WorldTheorems.OneCredentialPerSession | server/internal/api/issuer_handlers.go:206-258 | under every interleaving and any number of tokens per code: sessions and credentials are paired one to one, every handed-out credential is registered, CONSUMED or REVOKED, carries its session's own index, and nothing else is registered |
| WorldTheorems.HistoryAndAuditAgree | server/internal/db/postgres.go:110-172 | under every interleaving: no patch dereferences nil, the history starts at REQUESTED, ends in the current state, only grows, never goes back in time and equals the audit rows after a successful creation (all but the first entry after a failed one); pledge, settlement and reservation never become nil again |
| WorldTheorems.ClosingRevokes | server/internal/api/handlers.go:238-238 | a release, acceptance or resolution that takes effect leaves every credential issued so far for that deposit revoked at every later moment and touches no other deposit's sessions |
| WorldTheorems.RevokersRevoke | server/internal/api/handlers.go:555-566 | of all requests that take effect exactly release, acceptance and resolution revoke; the no-shortfall close does not |
| WorldTheorems.RevokedOnlyGrows | server/internal/issuance/session.go:128-151 | over every run the set of published revoked indices only grows and no credential is reactivated |
| WorldTheorems.RunOk | server/internal/api/issuer_handlers.go:64-259 | every reachable state keeps the index distinctness, the flight, ledger, store, plan, deposit and audit invariants |
| WorldTheorems.AtomicRunReplays | server/internal/api/handlers.go:61-93 | in every uninterrupted run each deposit is the replay of exactly the requests that the events since its creation hold for it, in order and at their times, starting from what its own creation event brought |
| WorldTheorems.AcceptanceOnTheServer | server/internal/api/handlers.go:511-567 | on the server: an acceptance that takes effect closes the deposit on the last offer among the requests received for it and comes from the other party |
| WorldSessions.SessionsStep | server/internal/issuance/session.go:69-151 | each event of the server keeps the session invariants, and rows only move forward from PENDING over CONSUMED to REVOKED |
| WorldDeposits.DepositsStep | server/internal/db/postgres.go:110-172 | each event keeps every deposit well formed and audited, every pending plan applicable, and never shortens a history |
| WorldWalks.WalkExactly | server/internal/db/postgres.go:130-165 | under every interleaving a deposit's history is a walk of the table (legal steps, never FUNDED, at most seven states) if and only if every committed write on it made a move that is legal from the state found under the lock, which no handler asks |
| WorldWalks.UndisturbedWalks | server/internal/api/handlers.go:430-499 | a history is a walk whenever no other update of the deposit falls between the read and the write phase of a request for it |
| WorldWalks.PlanOrigin | server/internal/api/handlers.go:420-440 | every plan in flight is what the last read phase of its request decided on the deposit that it saw |
| WorldWalks.EventAdvances | server/internal/db/postgres.go:110-172 | each event changes a deposit by one uninterrupted step, by committing the plan that was made for it, or not at all |
| WorldWalks.StaleWriteReenters | server/internal/api/verifier_handlers.go:128-161 | a presentation read while PLEDGED and written after a release puts the released deposit back to PLEDGED |
| WorldOrigins.StatesHaveOrigins | server/internal/statemachine/transitions.go:72-77 | under every interleaving, a history that holds IDENTIFIED had a request with the eID status VERIFIED, and one that holds PLEDGED had a pledge with a date and the bank's confirmation |
| WorldOrigins.EntryDecided | server/internal/db/postgres.go:140-145 | every new history entry is the state that a request for the deposit decided on, then or earlier |
| WorldDeposits.NeverBack | server/internal/statemachine/transitions.go:26-37 | a walk of the table that left PLEDGED stays strictly below it |
| Sessions.StepAgreesExactly | server/internal/db/session_store.go:40-239 | on a consistent store, an operation on the four maps gives the table's result and the table's next state if and only if it does not lean on a superseded access token |
| Sessions.RunsAgreeExactly | server/internal/issuance/session.go:69-179 | from empty, every sequence of operations gives the same results in both stores if and only if no operation leans on a superseded token, and then the same rows |
| Sessions.TwoExchangesDiffer | server/internal/issuance/session.go:111-139 | the run that creates a session, exchanges its code twice and presents the first token gives different answers |
| Sessions.ConsistentStep | server/internal/issuance/session.go:111-139 | every operation keeps the maps an exact index: codes and credentials one to one with rows, current tokens covered, a credential exactly on rows that left PENDING |
| Sessions.RevokeAgrees | server/internal/db/session_store.go:190-198 | the loop over issued credentials revokes exactly the rows that the UPDATE does |
| Sessions.RevokedAgree | server/internal/db/session_store.go:220-239 | both stores report the same set of revoked indices |
| Sessions.ScanByToken | server/internal/db/session_store.go:242-260 | a scan by token finds what the token map finds, except that it no longer finds a superseded one |
| Sessions.SupersededTokenDiffers | server/internal/issuance/session.go:128-139 | whenever a token is superseded and its session usable, the maps redeem it and the table refuses it |
| Sessions.LaterTokenSupersedes | server/internal/issuance/session.go:111-124 | exchanging a usable code again supersedes the earlier token without making its session unusable |
| SessionStores.MemoryStore.Create | server/internal/issuance/session.go:69-86 | enters a fresh PENDING session with a 15-minute life under its id and its code |
| SessionStores.MemoryStore.GetByToken | server/internal/issuance/session.go:102-107 | finds the very session that the token map leads to, with its current contents |
| SessionStores.MemoryStore.ExchangeCodeForToken | server/internal/issuance/session.go:111-124 | the shared session object and the token map change as the operation on values says; no change on an unknown, used or expired code |
| SessionStores.MemoryStore.ConsumeByToken | server/internal/issuance/session.go:128-139 | marks the shared session consumed and registers the credential, or changes nothing |
| SessionStores.MemoryStore.RevokeByDepositId | server/internal/issuance/session.go:143-151 | the in-place loop ends in the store where exactly the deposit's registered sessions are revoked, whatever order it visits them in |
| SessionStores.MemoryStore.RevokedStatusListIndices | server/internal/issuance/session.go:154-164 | collects exactly the indices of revoked registered sessions |
| SessionStores.MemoryStore.CredentialStatus | server/internal/issuance/session.go:168-179 | unknown, revoked or active, as the registered session says |
| SessionStores.ConstraintsKept | server/internal/db/migrations/002_issuance_sessions.sql:4-15 | every statement keeps the primary key and the three UNIQUE columns |
| SessionStores.TableStore.QueryOne | server/internal/db/session_store.go:242-260 | a scan finds the one matching row, or none when there is none |
| SessionStores.TableStore.ExchangeCodeForToken | server/internal/db/session_store.go:88-128 | the transaction has the table semantics and keeps the constraints |
| SessionStores.TableStore.ConsumeByToken | server/internal/db/session_store.go:132-186 | the transaction has the table semantics and keeps the constraints |
| SessionStores.TableStore.RevokeByDepositId | server/internal/db/session_store.go:190-198 | the scan, in whatever order, revokes exactly the consumed rows of the deposit and keeps the constraints |
| StatusList.BuildBitstring | server/internal/issuance/statuslist.go:49-57 | 16 384 bytes in which bit k, counted from the most significant, is set exactly when k is listed; indices out of range are ignored |
| StatusList.SetOneBit | server/internal/issuance/statuslist.go:55-55 | OR-ing one mask sets that position and leaves the other seven alone |
| StatusList.BitOrder | server/internal/issuance/statuslist.go:54-55 | position 0 is the bit 0x80 of the first byte, position 7 the bit 0x01 |
| DepositSafety.DecideFits | server/internal/api/handlers.go:397-507 | on a well-formed deposit no handler panics while deciding, and its plan can be carried out on that deposit |
| DepositSafety.FitsLater | server/internal/api/handlers.go:782-787 | a plan that fits a deposit fits every later version of it |
| DepositSafety.CommitSafe | server/internal/db/postgres.go:130-165 | a fitting plan commits without a nil dereference, keeps the deposit well formed, appends exactly one entry and sets the state to it |
| DepositSafety.PatchKeeps | server/internal/api/handlers.go:555-558 | a patch dereferences nil exactly when it agrees to a missing settlement or resolves a missing reservation; otherwise it only adds records |
| DepositRuns.EveryRunWalks | server/internal/statemachine/transitions.go:26-69 | every uninterrupted run starts at REQUESTED, follows the table or repeats at PLEDGED or SETTLE_PROPOSED, never meets FUNDED and meets at most seven states |
| DepositRuns.DecideLegal | server/internal/statemachine/transitions.go:50-77 | every handler's move is a transition of the table or one of the two repeats, and none enters FUNDED or REQUESTED |
| Lifecycle.TransitionsByTarget | server/internal/statemachine/transitions.go:26-37 | which states lead to each state |
| DepositRequests.CreationRecords | server/internal/api/handlers.go:61-93 | a creation is valid exactly with tenant, landlord, positive amount and type; what is stored field by field, with EUR and 2.0.0 as defaults |
| DepositRequests.IdentityExactly | server/internal/api/handlers.go:111-159 | an identity update takes effect exactly for VERIFIED in REQUESTED; what it records, and the code of every refusal |
| DepositRequests.PledgeExactly | server/internal/api/handlers.go:162-206 | a pledge takes effect exactly with a date and the bank's confirmation in IDENTIFIED or FUNDED; record and refusals |
| DepositRequests.PresentationExactly | server/internal/api/verifier_handlers.go:99-161 | a presentation is recorded exactly for a live session and a token that verifies for this deposit while PLEDGED; one for another deposit is refused; record and refusals |
| DepositRequests.ReleaseExactly | server/internal/api/handlers.go:209-242 | a release takes effect exactly in PLEDGED or CLAIMED |
| DepositRequests.ClaimExactly | server/internal/api/handlers.go:245-286 | a claim takes effect exactly with a positive amount and a reason in PLEDGED; record and refusals |
| DepositRequests.PartialReleaseExactly | server/internal/api/handlers.go:674-730 | a partial release takes effect exactly with valid amounts and date in PLEDGED; record and refusals |
| DepositRequests.ProposalExactly | server/internal/api/handlers.go:397-499 | a proposal takes effect exactly for one of the two parties, with positive, described claims, in PLEDGED or FUNDED or as an answer to the other party's last proposal; the code of every refusal |
| DepositRequests.ProposalRecords | server/internal/api/handlers.go:445-499 | the stored proposal holds every claim's category, description, amount, evidence and room, the tenancy, both amounts, and the first proposal's initiator and time |
| DepositRequests.AcceptanceExactly | server/internal/api/handlers.go:511-567 | either party accepts exactly the other's last proposal; the agreed amounts are the proposed ones; refusals |
| DepositRequests.DisputeExactly | server/internal/api/handlers.go:571-620 | a dispute takes effect exactly for one of the parties and three escalations in SETTLE_PROPOSED; record and refusals |
| DepositRequests.ResolutionExactly | server/internal/api/handlers.go:624-669 | what a resolution records, and the code of every refusal |
| DepositRequests.StatementExactly | server/internal/api/handlers.go:737-775 | a utility statement takes effect exactly with non-negative figures on a partially released deposit with a reservation; refusals |
| DepositRequests.BreakEvenRecords | server/internal/api/handlers.go:775-797 | without a shortfall: closed, with the statement on record and everything else untouched |
| DepositRequests.ShortfallRecords | server/internal/api/handlers.go:799-837 | with one: the whole shortfall is claimed, as much of it as was reserved is retained and the rest refunded |
| DepositRuns.RankFalls | server/internal/statemachine/transitions.go:26-37 | consecutive distinct states of a run strictly lower the rank |
| DepositRuns.ClosedIsFinal | server/internal/statemachine/transitions.go:26-37 | no sequence of requests changes a closed deposit |
| DepositRuns.EveryRunNegotiates | server/internal/api/handlers.go:440-478 | over any number of counter-proposals: recorded proposers strictly alternate, initiator and initiation time stay those of the first proposal, last proposer and time are those of the last; claim items are non-empty, positive, numbered item-1 to item-n and add up to the total |
| DepositRuns.ItemIdsDistinct | server/internal/api/handlers.go:446-458 | no two claim items share an id |
| DepositRuns.LastOfferOnTheTable | server/internal/api/handlers.go:809-837 | while SETTLE_PROPOSED or DISPUTED, the stored proposal is the last one that a request in the run made |
| DepositRuns.AcceptanceSealsTheLastOffer | server/internal/api/handlers.go:511-567 | an acceptance that takes effect closes the deposit on the amounts of the run's last offer and never comes from the party that made it |
| DepositRuns.AgreementAddsUpExactly | server/internal/models/deposit.go:335-345 | the documented sum refund + retention = amount is not checked: the agreed amounts add up if and only if those of the last offer did |
| DepositMoney.ReservationConserved | server/internal/api/handlers.go:674-845 | after a partial release, along every uncontested run: a utility claim asks at most for the shortfall and the reservation and splits the reservation exactly; a close on a shortfall records a split of the reservation, so released, refund and retention give the deposit amount if and only if the release added up to it; a close without shortfall leaves the recorded settlement untouched |
| DepositMoney.RetentionBoundedExactly | server/internal/api/handlers.go:771-797 | over every run from creation to such a close, the recorded retention stays within shortfall and reservation, and is zero without a shortfall, if and only if there was a shortfall or the creation request brought no retention of its own |
| DepositMoney.OldRetentionSurvives | server/internal/models/deposit.go:304-304 | created with a recorded retention of 500, a deposit closes without any shortfall and still records it |
| DepositMoney.SettlementNeedNotAddUp | server/internal/models/deposit.go:336-336 | on a deposit of 1000 a proposal of 2 and 3 is accepted and closes it |
| DepositMoney.PartialReleaseNeedNotAddUp | server/internal/models/deposit.go:377-377 | on a deposit of 1000 a partial release of 1 and 2 goes through to the close |
| DepositMoney.ResolutionAcceptedExactly | server/internal/api/handlers.go:624-669 | a resolution is accepted exactly with non-negative amounts and in the four states that the table takes to CLOSED |
| DepositMoney.ResolvedWithoutDispute | server/internal/api/handlers.go:624-669 | a released deposit that nobody disputed is closed by a resolution, which records its amounts |
| WorldClosing.ActiveAfterClosingExactly | server/internal/api/handlers.go:771-797 | with uninterrupted handlers, at every moment after a close a credential of the deposit is reported revoked if and only if it was issued before the close and the close was not a utility statement without shortfall |
| WorldClosing.RightAlongRun | server/internal/issuance/session.go:143-151 | with uninterrupted handlers, a revoked session belongs to a released or closed deposit |
| ClosedYetActive.ClosedYetActive | server/internal/api/handlers.go:771-797 | a concrete uninterrupted run that ends with a closed deposit whose credential is reported active |
| DepositRuns.UtilityOffers | server/internal/api/handlers.go:737-845 | a utility statement that takes effect closes without shortfall and otherwise proposes the capped retention and the remaining reservation, and always records the statement |
| Handlers.Repo.Create | server/internal/db/postgres.go:54-87 | stores the new deposit and then its audit row; when the first statement fails nothing is stored, when the second fails the first one stays |
| Handlers.Repo.UpdateState | server/internal/db/postgres.go:110-172 | patch, state column, JSON state, history entry and audit row change together or not at all; missing, panicking and failing cases told apart |
| Handlers.Server.CreateDeposit | server/internal/api/handlers.go:61-93 | refuses exactly the incomplete requests, stores the rest as one creation event does, and reports a failure of either statement |
| Handlers.RepliesExactly | server/internal/api/handlers.go:411-507 | a refused request is answered with its code, any other is accepted unless it panics or does not commit; nothing changes without a commit |
| Handlers.IndexAllocator.AllocateIndex | server/internal/issuance/statuslist.go:44-46 | returns the old counter and increments it |
| Handlers.Server.Handle | server/internal/api/handlers.go:209-242 | every mutating handler moves repository and sessions as one `Handle` event does, or leaves both alone when the update does not commit; the reply tells rejection code, internal error, panic and success apart exactly |
| Handlers.Server.Settle | server/internal/api/handlers.go:397-507 | the same for the proposal handler, with its own checks, loops and branches |
| Handlers.Server.UtilitySettle | server/internal/api/handlers.go:737-845 | the same for the utility statement handler, with its own checks and arithmetic |
| Handlers.PlanProposal | server/internal/api/handlers.go:409-495 | the imperative checks, loops and branches decide what the specification decides |
| Handlers.PlanStatement | server/internal/api/handlers.go:745-837 | the imperative checks and branches decide what the specification decides |
| Handlers.ClaimShortfall | server/internal/api/handlers.go:799-826 | the claim caps the retention at the reservation, refunds the rest and describes actual cost and advances to two places |
| Handlers.ChecksClaims | server/internal/api/handlers.go:405-418 | accepts exactly a known party with a non-empty list of positive, described claims |
| Handlers.Itemize | server/internal/api/handlers.go:446-458 | the loop numbers the items in order and its running total is their sum |
| Handlers.Server.IssueCredential | server/internal/api/issuer_handlers.go:64-107 | opens a session with the next index exactly when the deposit is PLEDGED |
| Handlers.Server.Token | server/internal/api/issuer_handlers.go:153-194 | exchanges exactly on the pre-authorized grant with a usable code |
| Handlers.Server.Credential | server/internal/api/issuer_handlers.go:198-259 | hands out a credential exactly when the session can be consumed, its deposit exists and format and type are the supported ones; it then carries the session's index; otherwise nothing changes |
| World.WalletSequence | server/internal/api/issuer_handlers.go:206-258 | the three phases of an uninterrupted wallet request amount to one consumption, recorded when it succeeds; nothing changes when the lookup or the consumption fails |
| World.IssueSequence | server/internal/api/issuer_handlers.go:64-107 | the three phases of an uninterrupted issuing request amount to one issuing event |
| World.HandleSequence | server/internal/api/handlers.go:209-242 | the phases of an uninterrupted lifecycle request amount to one handler event |
| WireFormat.SplitPresent | server/internal/verification/vp.go:211-234 | splitting undoes printing a presentation |
| WireFormat.PrintedIsPresentation | server/internal/issuance/credential.go:234-234 | the issuer's print is the presentation of all disclosures without key binding |
| WireFormat.SdInputInjective | server/internal/verification/vp.go:367-377 | the hashed string determines the issuer JWT and the disclosure list |
| WireFormat.HashCoversTokenExactly | server/internal/verification/vp.go:311-311 | for every token, what the server hashes is the token with only its key-binding suffix removed if and only if no inner part is empty or dotted and the last part is empty or dotted |
| WireFormat.BuildSdInput | sdk-examples/go/openid4vp/service.go:286-294 | the loop that terminates each part builds the token without its key-binding suffix |
| WireFormat.BuildSdInputRust | sdk-examples/rust/src/openid4vp/mod.rs:357-363 | the loop that separates the parts builds the same string |
| WireFormat.SplitOnServer | server/internal/verification/vp.go:211-234 | the loop classifies parts by their dot; the last dotted part is the key-binding JWT |
| WireFormat.SplitInGo | sdk-examples/go/openid4vp/service.go:118-142 | the loop classifies parts by position |
| WireFormat.RustReads | sdk-examples/rust/src/openid4vp/mod.rs:247-274 | the Rust splitter reads back a well-formed presentation if and only if its key-binding JWT differs from its issuer JWT |
| WireFormat.SplittersAgreeExactly | sdk-examples/go/openid4vp/service.go:118-142 | on well-formed tokens server and Go read back what was presented, and Rust does too exactly when the two JWTs differ |
| WireFormat.ServerPartsPlain | server/internal/verification/vp.go:211-234 | no part read from any token contains a separator |
| WireFormat.LastDottedFound | server/internal/verification/vp.go:218-234 | for arbitrary tokens the key-binding JWT is the last part with a dot |
| WireFormat.ServerClassifies | server/internal/verification/vp.go:211-234 | for arbitrary tokens: the first part is the issuer JWT and must not be empty, undotted parts disclose, the last dotted one binds |
| WireFormat.GoClassifies | sdk-examples/go/openid4vp/service.go:118-142 | for arbitrary tokens: the last part binds, the non-empty ones between disclose |
| WireFormat.RustClassifies | sdk-examples/rust/src/openid4vp/mod.rs:247-274 | for arbitrary tokens: the last part binds unless it repeats the issuer JWT, and then it discloses |
| WireFormat.UndottedConcat | server/internal/verification/vp.go:221-234 | disclosures are taken part by part, in order |
| WireFormat.NonEmptyConcat | sdk-examples/go/openid4vp/service.go:130-142 | the clients drop parts one by one, in order |
| SdJwt.BuildSdJwt | server/internal/issuance/credential.go:136-236 | derives every claim from the deposit, conceals six of them, signs the rest with their digests and the status entry, and prints the presentation of the encodings in order |
| SdJwt.Conceal | server/internal/issuance/credential.go:187-195 | the loop encodes and hashes the six disclosures in order |
| SdJwt.VerifyVpToken | server/internal/verification/vp.go:209-364 | the imperative verifier accepts exactly the tokens whose issuer JWT checks out with the right type, whose disclosures are all covered and readable, and whose key binding, if any, is bound; otherwise it gives the reason of the first step that fails |
| SdJwt.AcceptedExactly | server/internal/verification/vp.go:236-323 | a token is accepted if and only if it is admissible and its key binding, if any, has the type kb+jwt, the expected nonce and audience, the digest of the parts each followed by a separator, and an age of at most 300 000 000 000 ns |
| SdJwt.KeyBindingReasons | server/internal/verification/vp.go:287-322 | the error for each failing field of the key binding, first failing field first |
| SdJwt.DisclosureReason | server/internal/verification/vp.go:262-284 | the error for the first disclosure that is not covered or cannot be read |
| SdJwt.EarlierReasons | server/internal/verification/vp.go:213-251 | the errors for a missing or invalid issuer JWT and for the wrong type |
| SdJwt.AcceptedTells | server/internal/verification/vp.go:325-361 | what an accepted token tells, whoever issued it: the issuer JWT's claims, and for each disclosed name its last value if that has the right type |
| SdJwt.RevealAll | server/internal/verification/vp.go:262-284 | the loop over disclosures stops at the first failure and otherwise maps each name to its last value |
| SdJwt.PresentedIsVerified | server/internal/verification/vp.go:262-361 | for every selection the holder keeps, in any order: unexpired, and without key binding or with a bound one, it verifies to the issued values of the kept claims and defaults for the rest; an expired one is turned down by the JWT parser, and one with a key binding that is not bound is refused |
| SdJwt.DepositIsVerified | server/internal/issuance/credential.go:136-236 | what is issued for a deposit and presented in part verifies, exactly until the expiry that follows from the requested validity, to the deposit's own amount, currency, address, names and dates, field by field |
| SdJwt.SignedClaims | server/internal/issuance/credential.go:197-221 | what the issuer JWT reveals besides: issuer, subject, times, property and a status entry that names the session's index in the published list |
| SdJwt.BankAddress | server/internal/issuance/credential.go:163-169 | the bank's id is its name in lower case with dots for spaces |
| SampleCodec.SampleIsLawful | server/internal/issuance/credential.go:69-88 | the laws asked of encoding, signing and hashing can be met together: a codec is constructed that obeys them all |
| SdJwt.AcceptedWasIssued | server/internal/verification/vp.go:262-284 | conversely every disclosure of an accepted token was issued, and the result is that of the selection |
| SdJwt.KeyBindingFixesPresentation | server/internal/verification/vp.go:286-323 | accepted tokens with the same key-binding JWT are the same presentation |
| JsonArray.SplitJsonArray | sdk-examples/java/src/main/java/org/xmiete/sdk/openid4vp/OpenId4VpService.java:261-287 | the loop with its depth, string and escape flags returns the elements of the character-wise scan |
| JsonArray.SplitUndoesPrinting | sdk-examples/java/src/main/java/org/xmiete/sdk/openid4vp/OpenId4VpService.java:261-287 | for every array of strings, numbers, keywords, nested arrays and objects, surrounded by blanks, splitting returns exactly the printed elements if and only if the array is not empty |
| Conformance.Validate | server/internal/validator/validator.go:31-178 | the verdict is valid exactly for conformant deposits; each of the nine errors, six warnings and one note is reported exactly under its own condition, at most once, with its grade and the statute it quotes |
| Conformance.ConformantExactly | server/internal/validator/validator.go:48-178 | the one-sentence rule holds exactly when no error-severity condition does |
| Conformance.Report.CheckJurisdiction | server/internal/validator/validator.go:97-178 | appends the due jurisdiction findings in order and stops early without a country or a rule |
| Conformance.Report.HasErrors | server/internal/validator/report.go:55-62 | finds an error exactly when there is one |
| Conformance.RulesAreReal | server/internal/validator/rules.go:49-110 | every jurisdiction in the table has a positive cap, a currency and a statutory basis |
| Conformance.TableByCountry | server/internal/validator/rules.go:49-110 | which countries have rules, and per country the cap in months, the currency, the allowed types and whether interest is due |
| Conformance.StatutesByCountry | server/internal/validator/rules.go:49-110 | the statutes per country |
| Conformance.LowerAmountStaysConformant | server/internal/validator/validator.go:133-142 | lowering a positive amount keeps a deposit conformant |
| Conformance.HigherRentStaysConformant | server/internal/validator/validator.go:133-142 | raising a positive rent keeps a deposit conformant |
| Conformance.ScalingKeepsVerdict | server/internal/validator/validator.go:133-142 | scaling amount and positive rent alike leaves the verdict unchanged |
| JwkCoordinates.EncodeCoordinate | server/internal/api/issuer_handlers.go:401-406 | padding succeeds exactly when the coordinate is below 256 to the byte size; the octets then have that length and read back as the coordinate |
| JwkCoordinates.PublishAndRead | server/internal/api/middleware/auth.go:217-242 | publishing a key and decoding it gives the same curve and point, over 32, 48 or 66 octets per coordinate |
| JwkCoordinates.CurveSizes | server/internal/api/middleware/auth.go:217-242 | the three curve names with 256, 384 and 521 bits and 32, 48 and 66 octets; no other name is known |
| JwkCoordinates.BytesFit | server/internal/api/issuer_handlers.go:401-406 | the shortest form fits k bytes exactly when the number is below 256 to the k |
| Basics.DecimalRoundTrip | server/internal/issuance/credential.go:215-221 | the printed status list index reads back as the index |
| Basics.TwoPlacesRounds | server/internal/api/handlers.go:814-816 | an amount printed to two places reads back as the nearest number of hundredths, ties to even |

## Where the code differs from its documentation

- A proposal's refund and retention need not add up to the deposit amount
  (server/internal/models/deposit.go:336), nor a partial release's two amounts
  (server/internal/models/deposit.go:377): `DepositMoney.SettlementNeedNotAddUp` and
  `DepositMoney.PartialReleaseNeedNotAddUp` are inputs, `DepositRuns.AgreementAddsUpExactly` and
  `DepositMoney.ReservationConserved` say exactly when the outcome adds up.
- A creation request may bring a settlement along, and the close without a utility shortfall does not
  clear it: `DepositMoney.OldRetentionSurvives`, `DepositMoney.RetentionBoundedExactly`.
- A superseded access token still works in the in-memory store and not in the table:
  `Sessions.TwoExchangesDiffer`, `Sessions.RunsAgreeExactly`.
- Interleaved handlers can write a state that the table does not allow from the current one:
  `WorldWalks.StaleWriteReenters`, `WorldWalks.WalkExactly`, `WorldWalks.UndisturbedWalks`.
- A dispute resolution is accepted in every state from which the table reaches CLOSED, not only while
  DISPUTED: `DepositMoney.ResolvedWithoutDispute`, `DepositMoney.ResolutionAcceptedExactly`.
- The close without a utility shortfall (server/internal/api/handlers.go:775) revokes nothing, pending
  sessions are not cancelled, and the credential endpoint does not look at the deposit's state again,
  so a closed deposit may have an active credential: `ClosedYetActive.ClosedYetActive`,
  `WorldClosing.ActiveAfterClosingExactly`.
- The verifier's own expiry branch (server/internal/verification/vp.go:252-254) is not the one that an
  expired credential meets, because the JWT parser turns it down first: `SdJwt.PresentedIsVerified`.
- The array splitter returns one empty element for an empty array: `JsonArray.SplitUndoesPrinting`.

## Left out

- HTTP, JSON decoding of requests, routing, webhooks, mail, PDF receipts, e-mail templates: requests arrive decoded.
- SHA-256, ECDSA, base64url, gzip and the JWT libraries: fields of a `Codec` with stated laws, or left off the ends of a byte sequence.
- Floating point: amounts are `real` on the deposit side, so rounding of float64 sums and of the 1.005 tolerance is not captured; in a credential the amount is a whole number of cents.
- Dates: response and resolution deadlines are not modelled; calendar dates and the expiry derived from them are inputs of issuing; whether a billing date parses is a flag of the request.
- Free text: messages and field names of findings.
- `time.Now` is read once per event; UUIDs are fresh; counters are unbounded, without 64-bit wrap-around.
- Postgres isolation and locks: a transaction is one step. Faults of the session tables and a failing index allocation are not modelled.
- The store of verifier sessions: its lookup result (missing, expired, live) is part of the request, its single use is not modelled.
- Read-only lookups by id and code, table creation and the table's status queries as object methods: they are operations of `Sessions` only.
- Handlers other than the two with loops or arithmetic have no body of their own: `Handlers.Server.Handle` carries out what `Decide` decides.
- Credential offers, issuer metadata, remote key sets, OIDC validation and the remaining client SDK code.
- WorldTheorems.StatusAndBitsAgree: says nothing of the bit for an index of 131 072 or more, which the list has no room for.
- WorldTheorems.IssuedWithinQuarterHour: is about uninterrupted handlers, because a stale presentation can put a released deposit back to PLEDGED (`WorldWalks.StaleWriteReenters`).
