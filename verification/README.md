# Verified models of the market

This project models three parts of the market and proves what they promise.

**Credentials.** Merchants, recovery codes, staged key rotations, pairing codes, sign-in requests,
authorization codes, token families and tokens. Each SQL statement or transaction is modelled as one
guarded step over tables held in maps: `Grants` for the token tables, `Market`, `MarketIdentity` and
`MarketSignIn` for the rest. `GrantRuns`, `MarketRuns` and the modules beside them prove what every
step keeps and what holds over every run. Where a function or handler is several statements, they are
several steps, and anything may run between them: `TokenRoute` has refresh requests in flight between
classification and rotation, `MarketPairing` follows a pairing code from authentication over insertion
and use to the key that is read and the approval under it. `MarketKeys` proves what it means that every
merchant key is freshly made. `GrantBounds`, `MarketAnswers`, `MarketIsolation` and `MarketRetention` read the
same statements off the rows alone, without the guards they are written with: when each goes through, what
it leaves to everyone else, and how much a pruning takes. `MarketStore` is the same tables as a class whose
methods update them in place, CTE by CTE, each proved equal to its function and to keep the tables valid.

Three modules go below the statement, to snapshots, row locks and commits under READ COMMITTED, with any
number of connections. `ReadCommitted` interleaves approval, code exchange and key change, which all lock
the merchant; `RefreshRaces` refresh rotation and family revocation, which lock no merchant; and
`RecoveryRaces` the generation of recovery codes, which waits for the merchant's lock in the middle of its
only statement. The flows follow sections 4.1.2 and 6 of RFC 6749, section 4.14.2 of RFC 9700 and section 2
of RFC 7009.

**Payments.** `PaymentCustody` holds listings, purchases, direct purchase intents, listing-fee
attempts and the table that gives each transaction one owner; `PaymentFlows` the claim flow and the fee
flow, split at its chain call; `PaymentAnswers` the table of what each of them writes and answers; `PaymentDesk`
the imperative class. `ChainFinality` is a chain whose head may reorganise between RPC calls while its
finalized prefix only grows.

**The migration splitter.** `SqlLexer` gives a declarative grammar of lexemes, `SqlSplitter` the
imperative six-mode scanner, `SqlCharacters` its two sets of characters as code points, and the other `Sql`
modules the refinement and the round trips.

Two smaller parts complete it: `KeysetPages` (cursor predicates against the ORDER BY) and `Units`
(amounts through a double and through a decimal string).

## How to read the models

- A state is valid when its `Valid` predicate holds; `RunKeeps` shows that every run from a valid
  state stays valid, so the lemmas below hold in every reachable state.
- `keyChanges` of a merchant and `epoch` of a code, pairing code or family are bookkeeping columns:
  how often the key had changed when the row was made. `MarketTheorems` ties them to the key itself.
- Unique random values (tokens, authorization codes, pairing codes) are serial numbers; session, csrf
  and key hashes are numbers. No column makes merchant keys unique; the results about who holds a key are
  stated for runs in which every staged key is new (`MarketKeys.FreshRun`), as keys made from 24 random
  bytes are.
- Times are microseconds. `verifyDirectPayment` and signature checks are oracles, as is the x402 rail:
  one transaction reserved for one operation.
- Where PostgreSQL leaves a choice (which of two updates reaches a lapsed rotation row, which of two
  merchants under one key gets the staged row) the model takes the choice as a parameter.

## What turned out to be false of the code, and exactly when

- Redeeming a pairing code does not always hand out the key that minted it. It does if and only if no key
  change is committed between authentication and the code's insertion, nor between the code's use and the
  reading of the key; a change in either gap opens a grant under the new key for a code that was asked for
  under the old one (`MarketPairing.RedeemsMintingKeyExactly`, `MarketExamples.SlipsAfterUse`,
  `MarketExamples.SlipsBeforeInsertion`). The grant is always for the code's own merchant.
- Two generations of recovery codes that overlap leave sixteen live codes: the second, while it waits for
  the merchant's row, keeps the snapshot in which the first set did not exist. Live codes of an earlier
  generation are left exactly when another generation was committed since this one began
  (`RecoveryRaces.TidyExactly`, `RecoveryRaces.SixteenLiveCodes`). Recovery accepts only codes of the
  present generation, and of these there are none or eight in every interleaving
  (`RecoveryRaces.EverySetWhole`).
- A rotation committed beside a revocation can leave its new refresh token unrevoked in a revoked family.
  The family's own mark stops it (`RefreshRaces.UnrevokedTokenLeft`, `RefreshRaces.NoRotationSurvives`).
- Two identical fee requests with different starts, of which the second to write read nothing at first,
  judge the payment by different hours. The later one may prove a payment that no listing can be made from,
  and whose repetition sends it to review; the earlier one may send a payment to review for ever that could
  have been listed (`PaymentFlows.FeeProvenExactly`, `PaymentFlows.LateFeeProven`,
  `PaymentFlows.EarlyFeeReviewed`).
- A key change whose confirmation begins before its own ceremony is committed takes no lock in its
  first statement, and an exchange can then slip past its snapshot. The replacement key is shown only
  after staging has been committed, so whoever confirms with it cannot be early
  (`ReadCommitted.SafeExactly`, `ReadCommitted.EarlyConfirmationLoses`).
- A claim that began at the very instant its intent expired can store its transaction on the row that
  another payer's renewal made at that instant (`PaymentTheorems.StoresOnRenewedExactly`).
- After its token was pruned, `rotateRefreshToken` says `invalid` where it said `reused`; the token
  route answers both alike (`TokenRoute.PruneRelabels`).

If a random key were ever made twice, an approval under it would yield no outcome row
(`MarketSignInLaws.ApproveOneRow`, `MarketExamples.RepeatedKeyNoRows`); in runs with fresh keys every
approval has its one outcome (`MarketKeys.ApprovalAnswers`).

## Model

| member | source | states |
|---|---|---|
| SqlLexemes.FirstIff | scripts/release-migration-execution.ts:24-112 | the scan from normal mode finds a stretch of text exactly when the grammar calls it a lexeme: a line comment, a nested block comment, a doubled-quote literal, a dollar block closed by its own tag, or one plain character |
| SqlLexemes.PiecesOfLexing | scripts/release-migration-execution.ts:24-120 | any text that has a lexing is cut exactly at the bare semicolons of that lexing |
| SqlLexemes.LexingOfPieces | scripts/release-migration-execution.ts:24-120 | any text that is not refused has a lexing |
| SqlLexemes.LexingUnique | scripts/release-migration-execution.ts:24-112 | a text has at most one lexing, so the cut is determined by the grammar alone |
| SqlUnclosed.RefusesExactly | scripts/release-migration-execution.ts:114-117 | the splitter throws, naming what is open, exactly when the text is whole lexemes and then a literal, block comment or dollar block of that kind whose end it does not reach |
| SqlSplitter.FinishStatement | scripts/release-migration-execution.ts:18-22 | a finished statement is kept without the ECMAScript white space at its two ends, named code point by code point, and dropped when nothing else is in it |
| SqlSplitter.Step | scripts/release-migration-execution.ts:28-112 | one step of the scanner, in any mode, moves along the lexeme it is inside by exactly the text it takes |
| SqlSplitter.SplitMigrationSql | scripts/release-migration-execution.ts:11-121 | the imperative scanner returns one statement for each piece of the declarative cut in which anything is visible, and that piece without the white space at its ends; or it reports the same open lexeme |
| SqlCharacters.OnlyWhiteSpaceIsLost | scripts/release-migration-execution.ts:18-22 | of a text that is not refused only white space is dropped, beside the semicolons: statements and pieces show the same characters in the same order, no statement is empty, and none begins or ends in one of the twenty-five code points |
| SqlCharacters.SpaceIsWhite | scripts/release-migration-execution.ts:19 | what is trimmed are exactly the white space and line terminators of ECMAScript |
| SqlCharacters.DollarTagOpens | scripts/release-migration-execution.ts:44-46 | a dollar quotation opens exactly with a tag of the regular expression: nothing or an ASCII identifier between two dollar signs |
| SqlRoundTrip.PiecesRebuild | scripts/release-migration-execution.ts:24-120 | the untrimmed pieces joined by semicolons are the input, character for character |
| SqlRoundTrip.StatementAlone | scripts/release-migration-execution.ts:18-120 | every returned statement, split again, is the only statement returned |
| SqlRoundTrip.JoinThenSplit | scripts/release-migration-execution.ts:18-120 | any list of such statements, joined with newline-semicolon-newline and split, comes back as the same list |
| SqlRoundTrip.SplitIsStable | scripts/release-migration-execution.ts:11-121 | split, join and split again gives the first split |
| SqlRoundTrip.OpenIff | scripts/release-migration-execution.ts:114-120 | a text is refused exactly when it has no lexing |
| GrantRuns.RunValid | src/market-oauth-store.ts:396-597 | every run of the token statements keeps the tables' shape: no token outlives its family, a token is revoked with its family, links point back to used tokens, and one token of a family is unused |
| GrantRuns.RotatesOnce | src/market-oauth-store.ts:527-570 | after a refresh token rotated, no later presentation of it rotates, in any run |
| GrantRuns.ReplayKills | src/market-oauth-store.ts:453-487 | after a used refresh token was presented, no token of its family, old or newer, resolves or rotates in any later state |
| GrantRuns.FamilyIsPath | src/market-oauth-store.ts:551-562 | in every valid state the refresh tokens of a family form one chain of rotations in issue order, and only its end may be unused |
| GrantRuns.FullTenMinutes | src/market-oauth-store.ts:533-550 | LEAST never shortens a rotated access token: it gets the full ten minutes and resolves to the family's merchant |
| GrantBounds.RotatesExactly | src/market-oauth-store.ts:527-570 | on the rows alone: a refresh rotates if and only if its token is an unused, unrevoked, unexpired refresh token of exactly this client and resource in an unrevoked family with ten minutes left; a used one of that client and resource is a replay; all else is invalid and changes nothing |
| GrantBounds.ClassifiesExactly | src/market-oauth-store.ts:489-525 | the classification draws the same lines, but calls a replay junk when nothing is left to revoke |
| GrantBounds.AnotherClientNothing | src/market-oauth-store.ts:464-547 | presented by another client or for another resource, a token rotates nothing, revokes nothing and is classified junk |
| GrantBounds.ResolvesExactly | src/market-oauth-store.ts:599-622 | an access token speaks for a merchant if and only if token and family are in good order and the family is that merchant's, for exactly this resource and scope |
| GrantBounds.RevokesItsFamily | src/market-oauth-store.ts:572-597 | a replay or a client's revocation revokes the presented token's family with all its tokens, keeps earlier times and reasons, and moves no other row; another client's revocation does nothing |
| GrantBounds.RotationIssues | src/market-oauth-store.ts:551-562 | a rotation uses its token up and adds an access token that resolves and a linked refresh token that rotates next; every other row stays |
| GrantBounds.GrantServes | src/market-oauth-store.ts:396-622 | whatever runs after an exchange, its tokens serve exactly its merchant, client, resource and scope: access for ten minutes from issue, rotation while ten minutes of the thirty days are left, a replay once used, and nothing in anyone else's hands |
| GrantBounds.PruneTakesFifty | src/market-oauth-store.ts:667-694 | one pruning takes exactly fifty, or all, of the tokens whose families expired thirty days ago, newest first, and then of the families left empty, oldest first; what stays is unchanged |
| Grants.PruneReferences | src/market-oauth-store.ts:667-694 | pruning, newest token first, leaves no token without its family and no link to a pruned token |
| TokenRoute.RouteEquivalence | src/market-oauth-token.ts:181-222 | over any run of refresh requests in flight together, mixed with other statements that may run between a classification and its rotation, classifying first issues the same tokens to the same requests as always rotating, and ends in states that agree on every unexpired family and token |
| TokenRoute.RouteVerdicts | src/market-oauth-token.ts:187-222 | whatever ran since the classification: an admitted active token is rotated exactly if it was not used, its family not revoked and ten minutes are left, and one used meanwhile costs its family; a replay leaves its family dead or thirty days expired whatever the junk limit says or throws; junk changes nothing; a limit that denies is answered as throttled and one that fails as unavailable |
| TokenRoute.JunkIsInert | src/market-oauth-store.ts:489-525 | rotating a token classified junk would issue nothing and touch no unexpired family |
| TokenRoute.JunkForever | src/market-oauth-token.ts:181-190 | a classification of junk cannot go stale: whatever runs before the refusal is sent, the token is still junk |
| TokenRoute.LateReuseCheck | src/market-oauth-store.ts:568-570 | the reuse check, a second statement after a rotation that consumed nothing, gives the whole rotation of the later moment, whatever ran in between |
| TokenRoute.PruneUnseen | src/market-oauth-store.ts:667-694 | whatever requests are in flight or follow a pruning, every answer, resolution, classification and rotation is as without it |
| TokenRoute.PruneRelabels | src/market-oauth-store.ts:568-570 | the store's own verdict changes exactly for a used token the pruning removed, from reused to invalid |
| TokenRoute.PruneRelabelsExample | src/market-oauth-store.ts:568-570 | a reachable state in which it does |
| MarketIdentityLaws.ConfirmSignupOneRow | src/market-identity-store.ts:270-299 | a registration confirmation in a valid state yields exactly one row, or a unique violation |
| MarketIdentityLaws.StageRotationOneRow | src/market-identity-store.ts:376-408 | staging a rotation yields exactly one row, however many merchants hold the key |
| MarketIdentityLaws.ConfirmRotationOneRow | src/market-identity-store.ts:523-541 | a rotation confirmation yields exactly one row |
| MarketIdentityLaws.ConfirmRecoveryOneRow | src/market-identity-recovery-store.ts:204-220 | a recovery confirmation in a valid state yields exactly one row |
| MarketIdentityLaws.ActiveIsAvailable | src/market-identity-store.ts:440-455 | a pending unexpired rotation always carries the present key and generation |
| MarketIdentityLaws.ActiveRecoveryIsAvailable | src/market-identity-recovery-store.ts:132-145 | a running recovery ceremony is always on a code of the present generation |
| MarketSignInLaws.ApproveOneRow | src/market-oauth-store.ts:341-356 | for any number of holders of a key: an approval yields one row if and only if it is not an open request under a key that two or more merchants hold; it never yields more |
| MarketExamples.RepeatedKeyNoRows | src/market-oauth-store.ts:294-300 | a run in which one key is staged twice, after which an approval yields no row |
| MarketKeys.FreshFromEmpty | src/core.ts:99-101 | in every run from the empty tables whose staged keys are new: at any moment a key proves at most one merchant, and whom it proves then it proves later, until that merchant changes it |
| MarketKeys.OneHolder | src/core.ts:99-101 | in every run whose staged keys are new, from any state in which keys are distinct, a key proves at most one merchant |
| MarketKeys.KeyProvesUntilChanged | src/market-identity-store.ts:470-480 | in such a run a merchant's key proves that merchant and no other until the merchant changes it, and nobody ever after |
| MarketKeys.ApprovalAnswers | src/market-oauth-store.ts:283-366 | in such a run every approval has exactly one outcome: the holder's code, a rejected key or an unavailable request |
| MarketKeys.GenerationAnswers | src/market-identity-recovery-store.ts:20-58 | in such a run generating codes under a merchant's key always replaces that merchant's whole set, one generation on |
| MarketSignInLaws.ConfirmNewOneRow | src/market-oauth-registration-store.ts:238-267 | the new-merchant confirmation in a valid state yields exactly one of its five outcomes, or a unique violation |
| MarketSignInLaws.PruneAllReferences | src/market-oauth-store.ts:640-666 | no authorization code that stays refers to a request that goes |
| MarketRuns.RunKeeps | src/market-identity-store.ts:90-578 | every run of all statements keeps the tables valid and moves rows only onward: settled rotations, used codes and revoked families stay so, and a key changes only together with its generation |
| MarketRuns.NoEarlierGrantSurvives | src/market-identity-store.ts:470-518 | once a merchant's key changed anywhere in a run, no token, code, pairing code or ceremony from before it works |
| MarketRuns.NoEarlierCeremonyConfirms | src/market-identity-recovery-store.ts:20-51 | after any credential change, a new code set included, no rotation or recovery staged before it can confirm |
| MarketTheorems.RotationCutsOff | src/market-identity-store.ts:417-548 | when a rotation answers rotated, the merchant's key is the replacement, and in every later state no earlier access token resolves, no earlier refresh token rotates, no earlier code or pairing code works and no earlier ceremony confirms |
| MarketTheorems.RecoveryCutsOff | src/market-identity-recovery-store.ts:113-226 | the same when a recovery answers recovered |
| MarketIsolation.RotationSparesOthers | src/market-identity-store.ts:470-518 | when a rotation answers rotated, every other merchant keeps its row, recovery codes, pairing codes, authorization codes, families and tokens, each token resolves, rotates and is classified as before, and of its staged rotations only those that ran out are canceled |
| MarketIsolation.RecoverySparesOthers | src/market-identity-recovery-store.ts:149-203 | the same when a recovery answers recovered |
| MarketIsolation.OthersKeepTheirs | src/market-identity-store.ts:90-578 | of all statements, only those that present a merchant's own key, session, code or token touch anything it holds, except what had run out; only the clock works on all |
| MarketAnswers.StagesExactly | src/market-identity-store.ts:376-408 | a rotation is staged if and only if the presented key is the merchant's, the replacement differs, and no row has the session or csrf hash; for fifteen minutes |
| MarketAnswers.RotationAnswers | src/market-identity-store.ts:434-541 | a rotation confirms if and only if session and csrf hash are those that staged it, in time, with the staged key, and fewer than five were confirmed since midnight; any other answer moves nothing but staged rotations that ran out or were limited |
| MarketAnswers.StagesRecoveryExactly | src/market-identity-recovery-store.ts:60-111 | a recovery is staged if and only if its code is live without a running ceremony and session and csrf hash are new; of the other codes at most a ceremony that ran out is cleared |
| MarketAnswers.RecoveryAnswers | src/market-identity-recovery-store.ts:131-220 | a recovery confirms if and only if a live code carries session and csrf hash, in time, with the staged key; otherwise it is refused and changes nothing |
| MarketAnswers.GeneratesExactly | src/market-identity-recovery-store.ts:20-51 | recovery codes are generated if and only if one merchant holds the key and the eight codes are different and never issued: then its live codes and staged rotations are invalidated, and its handle, key, used codes and grants stay; otherwise nothing changes |
| MarketAnswers.ApprovesExactly | src/market-oauth-store.ts:283-362 | an approval goes through if and only if the request of this session and csrf hash is open and in time and exactly one merchant holds the key; it completes that request and adds one code of five minutes for its grant, and any other changes nothing |
| MarketAnswers.OpensExactly | src/market-oauth-store.ts:147-183 | a request is opened if and only if no request has its session or csrf hash, for fifteen minutes; no other moves but one that ran out |
| MarketAnswers.StagesNewcomerExactly | src/market-oauth-registration-store.ts:59-109 | a newcomer is staged if and only if the request is open and in time, the handle free and the eight codes different |
| MarketAnswers.NewcomerAnswers | src/market-oauth-registration-store.ts:115-267 | the newcomer's confirmation in every case: what it answers, that only the staged key in the staged session joins the merchant and issues the code, and that every other answer leaves all else as it was |
| MarketAnswers.StagesSignupExactly | src/market-identity-store.ts:94-126 | a registration is staged if and only if its eight codes are different and staged nowhere, its handle is free and its session and csrf hash are new; for fifteen minutes |
| MarketAnswers.RegistrationAnswers | src/market-identity-store.ts:186-299 | the registration's confirmation in every case, a repeated one included |
| MarketAnswers.CancelsItsOwn | src/market-identity-store.ts:559-578 | each of the four cancellations ends exactly what its own session and csrf hash staged, and nothing else |
| MarketAnswers.ExchangesExactly | src/market-oauth-store.ts:396-451 | a code is exchanged if and only if it is unused and in time and client, redirect address and resource are those it was issued for; that opens one family of thirty days with its two tokens, and anything else changes nothing |
| MarketAnswers.MakesPairingCode | src/market-pairing-store.ts:24-44 | a pairing code is made for ten minutes, and of the others only expired ones go |
| MarketAnswers.ReservesAndTakes | src/market-pairing-store.ts:101-160 | a reservation of a good code is taken if and only if in time and with its own csrf hash, and once; other sessions lose theirs only by expiry |
| MarketAnswers.SpendsExactly | src/market-pairing-store.ts:60-72 | a pairing code is spent if and only if unused, in time and not invalidated, and no other row moves |
| MarketRetention.PruneTakesFifty | src/market-oauth-store.ts:640-666 | in every run one pruning takes exactly fifty, or all, of the codes that expired thirty days ago and then of the equally old requests no staying code refers to, oldest first |
| MarketRetention.RunIds | src/market-oauth-store.ts:147-183 | no two requests ever share an id, which makes that order total |
| MarketTheorems.UnusedCodeUnderPresentKey | src/market-oauth-store.ts:283-362 | while the code of an approval is unused, its merchant's key is the key that was presented for it |
| MarketTheorems.FamilyUnderPresentKey | src/market-oauth-store.ts:396-451 | while the family of an exchange is not revoked, its merchant's key is the one it had at the exchange |
| MarketTheorems.ExchangesOnce | src/market-oauth-store.ts:411-424 | an authorization code is exchanged at most once in any run |
| MarketTheorems.PairsOnce | src/market-pairing-store.ts:60-70 | a pairing code is spent at most once in any run, names its own merchant, and can be spent only while the key stands under which it was inserted |
| MarketPairing.RedeemsMintingKeyExactly | src/market-pairing-store.ts:24-77 | whatever runs between the statements of minting and redemption, the key that redemption reads is the key that authenticated the minting if and only if no key change is committed between authentication and insertion, nor between use and read |
| MarketPairing.PairedApproval | src/market-oauth-pairing.ts:98-127 | from authentication to approval, whatever runs in between: the approval is for the merchant that authenticated, under its present key, and that is the key that authenticated exactly if no key change fell into those two gaps; in the two other gaps a key change stops the approval |
| MarketPairing.ChangeSlipsBetween | src/market-pairing-store.ts:64-76 | in any state with a redeemable code, an open request and a staged rotation: use, rotation, read and approval in this order open a grant under the new key |
| MarketExamples.SlipsAfterUse | src/market-pairing-store.ts:64-76 | such a state is reached from the empty tables |
| MarketExamples.SlipsBeforeInsertion | src/market-pairing-routes.ts:61-106 | a run in which the rotation falls between authentication and insertion |
| MarketTheorems.EightOrNone | src/market-identity-recovery-store.ts:20-51 | after any run of whole statements a merchant has no live recovery code or eight, all of its present generation |
| MarketTheorems.ReconfirmsTheSame | src/market-identity-store.ts:196-202 | in any later state, confirming a completed registration again answers the same merchant to the present key and rejects every other key |
| RotationLimit.FiveRotationsADay | src/market-identity-store.ts:459-470 | in every run a merchant has at most five confirmed rotations in one UTC day |
| MarketLiveness.StagedRotationConfirms | src/market-identity-store.ts:376-541 | a staged rotation answers: unavailable after fifteen minutes, rejected for another key, rate limited when the day is used up, and otherwise rotated |
| MarketLiveness.StagedRecoveryConfirms | src/market-identity-recovery-store.ts:60-226 | a staged recovery answers: unavailable after fifteen minutes, rejected for another key, and otherwise recovered for the code's merchant |
| MarketLiveness.GeneratedSet | src/market-identity-recovery-store.ts:14-58 | a generated set is exactly the live set afterwards, one generation on, under an unchanged key |
| MarketLiveness.ConfirmedSignupJoins | src/market-identity-store.ts:224-267 | a confirmed registration makes a new merchant with the staged handle, the presented key and exactly the staged eight codes |
| MarketLiveness.ApprovedGrantWorks | src/market-oauth-store.ts:327-451 | an approved code is exchangeable for exactly five minutes, and its family's access token speaks for the approving merchant and its refresh token rotates |
| MarketLiveness.PairingCodeWorks | src/market-pairing-store.ts:24-77 | a pairing code is redeemable for exactly ten minutes, and if nothing else runs hands out the merchant's key |
| MarketPruning.PruningUnseen | src/market-oauth-store.ts:636-694 | whatever runs after a pruning, every exchange, resolution, rotation, approval and new-merchant confirmation answers as without it |
| MarketStore.Store.RevokeReusedRefreshToken | src/market-oauth-store.ts:453-487 | updates the tables to the reuse check's function and says whether the token was a replay |
| MarketStore.Store.RotateRefreshToken | src/market-oauth-store.ts:527-570 | updates the tables to the rotation's function, with its verdict |
| MarketStore.Store.RevokeTokenFamilyByToken | src/market-oauth-store.ts:572-597 | revokes the family of the presented token for its own client and nothing else |
| MarketStore.Store.ResolveRefreshRateLimitSubject | src/market-oauth-store.ts:489-525 | reads the classification and changes nothing |
| MarketStore.Store.FinishRefresh | src/market-oauth-token.ts:187-222 | the rest of the route once the token is classified: admit and rotate, or refuse |
| MarketStore.Store.ExchangeAuthorizationCode | src/market-oauth-store.ts:396-451 | spends the code and opens its family exactly when the exchange's guard holds |
| MarketStore.Store.ApproveExistingMerchant | src/market-oauth-store.ts:283-366 | completes the request and issues one code when one merchant holds the key, with the outcome rows |
| MarketStore.Store.ConfirmMerchantRotation | src/market-identity-store.ts:434-548 | the whole confirmation transaction, with its outcome row |
| MarketStore.Store.ConfirmMerchantRecovery | src/market-identity-recovery-store.ts:131-226 | the whole confirmation transaction, with its outcome row |
| MarketStore.Store.GenerateMerchantRecoveryCodes | src/market-identity-recovery-store.ts:20-58 | the new generation, for the one merchant that holds the key |
| MarketStore.Store.ConfirmMerchantRegistration | src/market-identity-store.ts:192-299 | creates the merchant, cancels on a taken handle, or answers a completed registration again |
| MarketStore.Store.ConfirmNewMerchant | src/market-oauth-registration-store.ts:115-270 | creates the merchant and issues its first code, cancels on a taken handle, or refuses |
| MarketStore.Store.CreateMerchantPairingCode | src/market-pairing-store.ts:24-44 | drops expired codes and adds one of ten minutes |
| MarketStore.Store.ReservePairingCode | src/market-pairing-store.ts:101-137 | keeps one reservation a session, expiring with its code |
| MarketStore.Store.TakeReservedPairingCode | src/market-pairing-store.ts:147-160 | hands the reserved code out and deletes the reservation |
| MarketStore.Store.SpendPairingCode | src/market-pairing-store.ts:64-72 | spends a redeemable code and names its merchant |
| MarketStore.Store.ReadMerchantKey | src/market-pairing-store.ts:73-76 | reads the merchant's key as it is by then |
| MarketStore.Store.HandleConfirmPair | src/market-oauth-pairing.ts:84-127 | with nothing in between: a connection is made exactly when reservation and code are good, the request is open and the merchant's key is its own alone; it is for the reserved code's merchant under the present key, and neither reservation nor code works again |
| MarketStore.Store.PruneRetired | src/market-oauth-store.ts:636-694 | removes the fifty oldest retired codes and requests, the fifty newest retired tokens and the emptied families, all chosen from one snapshot |
| ReadCommitted.EveryRunSafe | src/market-identity-store.ts:422-518 | with approval, exchange and key change split into snapshot, merchant lock, guarded update and commit, no interleaving leaves an unused code or unrevoked family that was approved before a committed key change |
| ReadCommitted.SafeExactly | src/market-identity-store.ts:422-434 | the interleavings are safe if and only if lock and revocations are two statements and a confirmation begins after its ceremony is committed |
| ReadCommitted.ChangeSparesOthers | src/market-identity-store.ts:470-518 | in every interleaving a committed key change uses up all its merchant's codes, revokes all its families, and moves no row of another merchant |
| ReadCommitted.ApprovesPresentKey | src/market-oauth-store.ts:294-308 | in every interleaving an approval that commits is for a merchant that holds the presented key at that moment |
| ReadCommitted.OldCeremonyFinishes | src/market-identity-store.ts:435-455 | a ceremony staged before a committed key change finds nothing to confirm once it holds the lock |
| ReadCommitted.OneStatementLoses | src/market-identity-store.ts:422-434 | with one statement, a run in which a family opened while the key change waits for the lock is never revoked |
| ReadCommitted.EarlyConfirmationLoses | src/market-identity-store.ts:423-433 | a run in which a confirmation that began too early, and so holds no lock, misses a family |
| RefreshRaces.EveryRunOnce | src/market-oauth-store.ts:533-570 | in every interleaving of rotations and revocations a refresh token has at most one successor and a family at most one unused token |
| RefreshRaces.OnceExactly | src/market-oauth-store.ts:534-548 | and this is so if and only if the test for an unused token stands in the statement that uses it |
| RefreshRaces.NoRotationSurvives | src/market-oauth-store.ts:453-487 | once a revocation of a family is committed, no token of it works in any later state, not even one that a rotation in flight inserts |
| RefreshRaces.RevokedNeverRotates | src/market-oauth-store.ts:533-548 | a token that a committed revocation saw unrotated never gets a successor, not even from a rotation in flight |
| RefreshRaces.UnrevokedTokenLeft | src/market-identity-store.ts:508-518 | a run that leaves an unrevoked token in a revoked family |
| RecoveryRaces.EverySetWhole | src/market-identity-recovery-store.ts:20-51 | in every interleaving of generations, stagings and confirmations recovery accepts no code or one whole set, of the present generation |
| RecoveryRaces.NoEarlierCeremonyConfirms | src/market-identity-recovery-store.ts:131-149 | in every interleaving no rotation or recovery staged before a committed credential change confirms after it, even one the change did not see |
| RecoveryRaces.OldKeyDoesNothing | src/market-identity-recovery-store.ts:20-37 | a generation or staging that was given a key which was changed while it waited ends without a trace |
| RecoveryRaces.ConfirmsOnlyStaged | src/market-identity-recovery-store.ts:131-149 | in every interleaving a code confirms a recovery only after one was staged on it |
| RecoveryRaces.TidyExactly | src/market-identity-recovery-store.ts:21-37 | a generation leaves live codes of earlier generations if and only if another generation was committed since it began |
| RecoveryRaces.SixteenLiveCodes | src/market-identity-recovery-store.ts:20-51 | two generations that overlap: sixteen live codes, of which eight are usable |
| ChainFinality.FinalizedForever | src/chain.ts:283-327 | a finalized answer means that from the second read on, at every later moment, the receipt's block is canonical and final, and the evidence is that block's |
| ChainFinality.FinalizedExactly | src/chain.ts:283-327 | when every call is answered, finalized holds if and only if the final head had reached the block and the block was canonical at the second read |
| ChainFinality.UnfinalExactly | src/chain.ts:283-327 | every other answer: pending canonically while the final head is below the block, pending when the block is off the chain, unavailable when a call failed |
| ChainFinality.ReversedReadsAcceptOrphans | src/chain.ts:295-298 | with the two reads reversed there is a chain on which an orphaned receipt is called finalized |
| ChainFinality.ClassifyReceiptTransfer | src/chain.ts:361-437 | the loop finds the first log that qualifies, and its verdict means what the logs say: matched with the first transfer event of the token to the recipient, from the payer, of the amount asked for, together with the authorization's event; invalid once final without them |
| ChainFinality.VerdictExactly | src/chain.ts:373-437 | read off the receipt: a final receipt is matched if and only if it succeeded, logs a transfer as asked by the token's own address and signature, and, when a nonce is asked for, the authorization event of that payer and nonce; otherwise it is invalid, and before finality neither is answered |
| ChainFinality.NeverBothWays | src/chain.ts:361-437 | for one query, at any two moments, matched and invalid_final are never both answered, and two matched answers are equal |
| ChainFinality.FinalIsPermanent | src/chain.ts:334-359 | after a final look, every later answered look finds the same receipt and the same evidence |
| PaymentRuns.RunKeeps | src/direct-payment-attempts.ts:33-72 | every run of the payment and listing statements keeps the tables valid and moves rows only onward |
| PaymentTheorems.IntentHistory | src/direct-payment-attempts.ts:33-72 | an intent moves only from unsubmitted to pending to completed or needs review, keeps its transaction and terms once stored, and is completed exactly when its purchase exists |
| PaymentTheorems.InsideTheWindow | src/artifact-purchase-routes.ts:391-441 | the claim that stored began, and a completed payment landed, inside the inclusive window |
| PaymentTheorems.StoresOnRenewedExactly | src/artifact-purchase-routes.ts:158-173 | a claim checked against one contract stores on a row renewed meanwhile if and only if it began at the instant at which the old contract expired and the new one began, and the row and transaction are free |
| PaymentTheorems.EarlyClaimNeverStoresOnRenewed | src/direct-payment-attempts.ts:39-50 | a claim that began strictly before its deadline never stores on a renewed row |
| PaymentTheorems.BoundaryClaimStoresOnRenewed | src/artifact-purchase-routes.ts:168-173 | a run from the empty tables in which a claim at that instant does store on the renewed row |
| PaymentTheorems.OneActionATransaction | src/listing-fee-payment.ts:96-145 | across direct claims and direct fees a transaction backs at most one completed action |
| PaymentTheorems.OneListingARequest | src/artifact-listing-routes.ts:395-439 | one exact listing request creates at most one listing on the direct rail |
| PaymentTheorems.ExactlyOneFee | src/artifact-listing-routes.ts:392-492 | in every reachable state a listing that is not the shopkeeper's has exactly one fee row, accounted for by its rail |
| PaymentTheorems.SalesCountPurchases | src/artifact-purchase-routes.ts:284-301 | in every reachable state sales equals the number of the listing's purchases |
| PaymentTheorems.TermsFrozen | src/artifact-listing-routes.ts:534-604 | price and wallet never change; title and artifact are fixed by a price or a purchase, and all terms by a purchase |
| PaymentTheorems.HandlerAgrees | src/artifact-purchase-routes.ts:653-667 | in every reachable state the handler's millisecond test of the earliest terminal time agrees with the SQL guard for every whole-second payment |
| PaymentDelivery.StoredPaymentDelivers | src/artifact-purchase-routes.ts:391-441 | in any later state a stored payment inside its window is delivered if and only if the buyer has no purchase yet and the listing was still owed at the payment; a refused delivery changes nothing |
| PaymentFlows.RetryNeverLate | src/direct-payments.ts:42-68 | a retry of a stored claim is never refused for lateness, and a payment verified inside the window is proven however late the retry comes |
| PaymentFlows.ProvenIsStored | src/direct-payment-claim.ts:77-197 | a proven payment was signed and verified inside the signed contract's window, and the row at the write holds this transaction |
| PaymentFlows.FirstClaimStoresLast | src/direct-payment-claim.ts:120-160 | a first claim writes only by storing, and only after signature, chain and window were all checked |
| PaymentFlows.ResolveValid | src/direct-payment-claim.ts:77-197 | whatever a claim answers, it moved the tables by guarded writes only |
| PaymentAnswers.StoredClaimEnds | src/direct-payment-claim.ts:81-197 | the end of a stored claim by the chain's answer: invalid or outside the window sends the pending row to review with its transaction kept and answers under review, verified inside is proven, unfinal or unavailable leaves the tables as they were |
| PaymentAnswers.FirstClaimEnds | src/direct-payment-claim.ts:90-187 | the end of a first claim: timing, signature, chain and window are refused in this order before anything is written; then row and transaction are taken together, or the row as found decides |
| PaymentAnswers.ClaimEnds | src/direct-payment-claim.ts:77-197 | the two tables and the settled cases cover every claim |
| PaymentFlows.FeeProvenExactly | src/listing-fee-payment.ts:216-336 | whatever runs between first read, write and chain call: a request that asks the chain owns its transaction and proves exactly the payments of its own hour; if and only if its first read found the attempt, or the attempt was stored with the same start, all of them lie in the stored window, and no payment of the stored window goes to review |
| PaymentFlows.ProvenFeeLists | src/artifact-listing-routes.ts:395-439 | in any later state a proven fee makes its listing exactly if the attempt is still pending and the payment lies in the stored window |
| PaymentFlows.OutsideFeeIsReviewed | src/listing-fee-payment.ts:244-323 | a payment outside the stored window goes to review when its request is repeated |
| PaymentFlows.LateFeeProven | src/listing-fee-payment.ts:244-323 | two identical requests of which the later proves a payment outside the stored window, from which no listing can be made |
| PaymentFlows.EarlyFeeReviewed | src/listing-fee-payment.ts:244-323 | two identical requests of which the earlier sends a payment inside the stored window to review, from which no later run lists it |
| PaymentFlows.AnotherFeeRefused | src/listing-fee-payment.ts:230-242 | a request that stored one fee payment refuses any other transaction or payer and changes nothing |
| PaymentFlows.BeginFeeValid | src/listing-fee-payment.ts:216-290 | whatever a fee request does before its chain call, it moved the tables by guarded writes only |
| PaymentFlows.EndFeeValid | src/listing-fee-payment.ts:291-336 | and so after it |
| PaymentAnswers.FeeBegins | src/listing-fee-payment.ts:216-290 | a request that read no attempt stores its payment with the hour that ends at its own start if request and transaction are free, and otherwise goes by the row it finds; one that read its attempt goes on with the stored hour; another transaction or payer is refused |
| PaymentAnswers.FeeEnds | src/listing-fee-payment.ts:291-336 | proven if and only if verified inside the window asked about; invalid or outside sends the pending attempt to review; otherwise nothing moves |
| PaymentAnswers.OpensIntentExactly | src/artifact-purchase-routes.ts:138-173 | an intent is opened for ten minutes if and only if the listing is on sale by another merchant under the price and wallet shown and not yet bought, and no earlier intent is submitted or still runs |
| PaymentAnswers.DeliversExactly | src/artifact-purchase-routes.ts:390-441 | a payment is delivered if and only if the pending row stores this transaction, payer, price and wallet, it was paid inside its window while the goods were owed, the transaction is the row's own and the buyer has no copy |
| PaymentAnswers.BuysExactly | src/artifact-purchase-routes.ts:255-310 | a copy is sold outside a claim if and only if it is another merchant's at this price and wallet, on sale or owed at the accepted moment, not yet the buyer's, and free or paid by a fresh transaction of the rail's operation |
| PaymentAnswers.ShelvesExactly | src/artifact-listing-routes.ts:534-673 | only its own merchant withdraws or edits a listing, only on sale and, to edit, unsold; a priced one keeps title and artifact; every other request changes nothing |
| PaymentAnswers.ListsDirectExactly | src/artifact-listing-routes.ts:395-439 | a direct listing is made if and only if its pending attempt has this transaction and was paid inside its window; row, fee row and completed attempt hold what was asked for |
| PaymentAnswers.ListsX402Exactly | src/artifact-listing-routes.ts:456-472 | an x402 listing is made if and only if the transaction is the operation's own and paid no fee before |
| PaymentDesk.Desk.OpenIntent | src/artifact-purchase-routes.ts:128-182 | makes the intent row, or renews it only when unsubmitted and expired |
| PaymentDesk.Desk.ReserveDirectPaymentAttempt | src/direct-payment-attempts.ts:33-51 | stores the transaction and takes its ownership in one step, inside the window |
| PaymentDesk.Desk.MarkDirectPaymentNeedsReview | src/direct-payment-attempts.ts:53-72 | moves only a pending row to review |
| PaymentDesk.Desk.ResolveDirectPaymentClaim | src/direct-payment-claim.ts:77-197 | the claim flow, step by step, equal to its function on state and answer, and ending as the table of its case says |
| PaymentDesk.Desk.RecordDirectPurchase | src/artifact-purchase-routes.ts:390-441 | purchase, completed intent and sale count change together or not at all |
| PaymentDesk.Desk.WithdrawListing | src/artifact-listing-routes.ts:653-673 | the merchant's withdrawal of a live listing |
| PaymentDesk.Desk.RemoveListing | src/moderation-routes.ts:32-42 | the maintainer's removal, which clears the withdrawn flag and keeps its time |
| PaymentDesk.Desk.EditListing | src/artifact-listing-routes.ts:537-606 | an edit of a live unsold listing, without title and artifact when priced |
| PaymentDesk.Desk.CreateDirectListing | src/artifact-listing-routes.ts:395-439 | listing, fee row and completed attempt appear together or not at all |
| PaymentDesk.Desk.ReserveFeeAttempt | src/listing-fee-payment.ts:96-145 | one attempt a request and one owner a transaction |
| PaymentDesk.Desk.BeginListingFeePayment | src/listing-fee-payment.ts:216-290 | the fee flow up to its chain call, equal to its function on state and outcome |
| PaymentDesk.Desk.EndListingFeePayment | src/listing-fee-payment.ts:291-336 | the fee flow after the chain's answer, on the tables of that moment |
| KeysetPages.AfterCursorExactly | src/collection-routes.ts:196-207 | in both sorts the shelf predicate holds exactly for the rows strictly after the cursor in the ORDER BY |
| KeysetPages.AfterAnchorExactly | src/collection-routes.ts:126-137 | so does the store predicate, for the rows strictly after the anchor row |
| KeysetPages.WalkVisitsAll | src/collection-routes.ts:208-246 | on a fixed snapshot, following cursors from the start visits every eligible row once, in order, in full pages but for the last, and stops |
| KeysetPages.StorePageAt | src/collection-routes.ts:115-149 | a store page after an id holds the rows that follow that row, as many as the limit allows, the total, and the last row's id exactly if more follow |
| KeysetPages.StoreRefusesExactly | src/collection-routes.ts:123-143 | exactly the ids outside the store are refused |
| KeysetPages.StoreWalkVisitsAll | src/collection-routes.ts:115-149 | on a fixed snapshot, following `before_id` from the start visits every eligible row of the store once, in order, in full pages but for the last, and stops |
| Units.StoredUnitsExact | src/chain.ts:198-201 | an amount of fewer than 2^51 micro-units stored as a double and passed through toUnits comes back exactly, from the relative rounding bound alone |
| Units.FormatReads | src/chain.ts:245-249 | the formatted amount reads back as the amount |
| Units.ReadsOnce | src/chain.ts:245-249 | a string reads as at most one amount |

## Left out

- Strings hold Unicode scalar values; JavaScript's UTF-16 units differ only for lone surrogates, which the splitter never treats specially.
- SHA-256, random generation and signature recovery; hashes are opaque and distinct.
- The history table of ended recovery ceremonies: whether it refuses a session is a free parameter of staging, so the results hold either way.
- Pairing codes in `ReadCommitted`: the foreign key of an inserted code waits for the merchant's lock (db/schema.sql:406-417), and use and invalidation meet on the code's own row, so `MarketPairing` takes each statement as one step and lets everything else run in between.
- The reads that follow a guarded update which found nothing, in the payment attempts: each is taken together with its update.
- The second read that follows `request_unavailable` in the registration confirmation, which matters only under interleaving.
- A unique violation on `merchants_handle_key` between two concurrent registrations; in one atomic step the handle conflict is seen and answered.
- HandleConfirmPair: runs with nothing between its statements, because a method runs whole; `MarketPairing` lets anything run in its gaps.
- Deadlocks between statements under READ COMMITTED: a statement may abort at any point, and the retry is a new one.
- MarketPruning.PruningUnseen: assumes that no new request reuses the session or csrf hash of an expired one, because both are random.
- Rate-limit counters, field and shape validators, argument and Accept-header parsing.
- HTTP plumbing, cookies, pages, door text and the MCP catalog; OAuth client metadata and URL parsing.
- x402 settlement and its facilitator beyond one reserved transaction an operation.
- World drafts, checkouts and sync, and world listing fees; legacy rows and superseded intents.
- The duplicate-title check, whose answer may be out of date when the listing is made.
- Events, karma and other public history written beside the modelled rows.
- Encoding of shelf cursors as base64url JSON; a cursor is its position.
- Migration execution and its checks against the PostgreSQL catalogs.
