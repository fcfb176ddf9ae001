# A verified model of the shipping-finance escrow

The repository lets a shipping company raise USDC against an offering. A factory
contract sells the whole raise as shares of a freshly deployed permissioned token
(sep57), holds the USDC, and pays principal and interest back as the shares are
burned. Mints and burns need a permit signed off-chain by an admin key. A backend
builds those permits, retries over several RPC endpoints, and mirrors the factory's
events into a database by polling.

This project models that machinery in Dafny and proves what it is for:

- **The escrow** (`Factory`, `FactoryContract`, `Usdc`, `Sep57`, `IdentityVerifier`,
  `Compliance`). Every contract is specified as a function from storage to storage
  or an error, and implemented as a class that overwrites its storage in place,
  calls the other contracts and undoes all of their writes on failure.
  `SystemContract` makes any call of a run on these objects.
- **Whole runs** (`System`, `Effects`, `Invariants`, `Escrow`, `ShareBooks`,
  `Liveness`, `Lifecycle`, `Admission`, `History`, `Approvals`, `Signatures`, `Holders`,
  `Scenarios`). `System.Run` is any sequence of calls by anyone on any of the contracts,
  at any ledger, over any number of offerings; a rejected call changes nothing. `Effects`
  states what an accepted call does in terms a caller sees, and the other modules prove
  what holds after every run: conservation of USDC, solvency, rounding, claim order, the
  agreement of two ledgers, what every balance, holding and registry entry must be after
  its history, and exactly which calls are accepted.
- **One share token** (`Sep57Runs`): any run of one token, in any environment.
- **The permit format** (`Permit`, `PermitEncoder`): the on-chain bytes, a decoder,
  and the off-chain byte loops on arrays.
- **The backend loops** (`Poller`, `EventsService`, `Failover`).

`Prelude` holds the shared vocabulary, `MapSums` and `Arithmetic` the few facts about
sums over maps and integer division that the proofs need.

## What the code does and its texts do not say

The model follows the code. Where that differs from what comments, user interface or
documentation say, the exact condition under which the code keeps the promise is proved
for all inputs, with a concrete case in which it does not:

- `collect_fund` stores nothing, so it can be repeated, although the user interface
  calls it one-shot (`frontend/app/app/(protected)/collateral/[rwaId]/page.tsx:186-190`).
  The factory covers its pools if and only if emergencies took no more than it was
  supplied with and has not yet paid out as raise (`Escrow.SolvencyExactly`);
  `Scenarios.CollectingTwiceBreaksSolvency` is a run in which it does not.
- A sep57 transfer reads both balances before it writes either, so an account that
  sends to itself is credited twice. Balances add up to the supply if and only if that
  never happened (`Sep57Runs.SupplyConservation`, `Sep57Runs.SelfTransferInflates`).
  The supply subtraction of a burn can then overflow, under the condition of
  `Sep57Runs.TrapsExactly`; `Sep57Runs.BurnCanTrap` is a run.
- An expired permit is said to fail with a factory error and not in the token
  (`contract/contracts/factory/src/lib.rs:94-95`). It does if and only if the deadline
  ledger is past; at the deadline ledger the token's error comes through
  (`Lifecycle.LateClaims`, `Lifecycle.LateCreations`, `Scenarios.ClaimAtItsDeadline`,
  `Scenarios.CreationAtItsDeadline`).
- A full page of events that ends inside a ledger makes the poller skip the rest of that
  ledger, although a comment relies on deduplication of a re-read. What a run loses, so
  or by starting from too far behind, is `Poller.PollerCompleteExactly`, what one page loses is `Poller.FullPageExactly`, and
  `Poller.BusyLedgerLosesAnEvent` gives a chain.
- The approval prepared off-chain is said to mirror the contract exactly
  (`backend/src/rwa/rwa.service.ts:295-298`); it rounds once where the contract rounds
  twice. When it mirrors it is `Approvals.ApprovalMirrorsExactly`;
  `Approvals.ApprovalExceedsUpfront` is an input for which it does not.
- The documented lifecycle collects after funding and settles after collection. The code
  asks for neither: `Lifecycle.CollectAcceptedExactly` and
  `Lifecycle.SettleAcceptedExactly` say what it does ask for, and in
  `Scenarios.SettledBeforeAnySale` an offering is settled with nothing sold.

## Assumptions

- Storage starts empty except that USDC already circulates (`System.Genesis`); the
  factory cannot be made to sign an outside call and has approved nobody.
- `i128` arithmetic traps on overflow (`overflow-checks = true` in the release profile),
  and a trap or a panic reverts the whole call.
- Ed25519 verification (section 5.1 of RFC 8032) is an opaque predicate of key, message
  and signature. The deployed address is an opaque function of the salt; deploying to an
  address in use fails. The ledger sequence is an argument of every call.
- USDC follows the interface of SEP-0041 (section "Interface") with the semantics of the
  factory's own stand-in token; new USDC comes from its issuer and is never negative.

## Model

| member | source | states |
|---|---|---|
| `Invariants.UsdcConservation` | contract/contracts/factory/src/lib.rs:73-405 | After every run, over any number of interleaved offerings, the factory's USDC is its start balance plus deposits, less emergency withdrawals, plus for each offering all three pools and the raise not yet collected; every offering agrees with its event history (holdings plus claims make up the shares bought, at most the total; Open means unsold shares remain, Funded that none do, Settled that something was repaid; no pool is negative and each is what went in less what went out), and the last call was rejected without effect or had exactly its effect. |
| `History.OfferingsFromHistory` | contract/contracts/factory/src/lib.rs:73-385 | After any run every field of an offering that changes is what the accepted calls on it make it: sales, both pools less what was claimed, the fee pool until it is withdrawn, and the status. |
| `History.HoldingsFromHistory` | contract/contracts/factory/src/lib.rs:217-348 | After any run every account's holding in an offering is the sum of its own accepted purchases less its own accepted claims. |
| `History.HoldingMoves` | contract/contracts/factory/src/lib.rs:218-348 | For every account: a call moves a holding only if it is that account's purchase or claim on that offering, by its amount. |
| `History.TermsFromCreation` | contract/contracts/factory/src/lib.rs:160-176 | The terms of every offering are those of the accepted call that created it. |
| `History.BalancesFromHistory` | contract/contracts/factory/src/token.rs:99-212 | After any run every account's USDC is what it started with plus what the accepted calls gave it and took from it; who sends to himself is credited. |
| `History.RegistryFromHistory` | contract/contracts/identity-verifier/src/lib.rs:46-60 | After any run every registry entry is, flag, role and country, the last one the registry's admin made, or the one at the start. |
| `History.VerifiedFromHistory` | contract/contracts/identity-verifier/src/lib.rs:33-44 | After any run a user passes verification if and only if the last entry says so. |
| `Escrow.FactoryBalance` | contract/contracts/factory/src/lib.rs:107-405 | The same balance, with the pools and the uncollected raise as separate sums. |
| `Escrow.SolvencyExactly` | contract/contracts/factory/src/lib.rs:234-259 | The factory's USDC covers all pools of all offerings if and only if emergency withdrawals are at most start balance plus deposits plus the uncollected raise. |
| `Escrow.CollectOnceIsSolvent` | contract/contracts/factory/src/lib.rs:234-259 | Without USDC emergencies and with at most one paying collection per offering, every run ends solvent. |
| `Scenarios.CollectingTwiceBreaksSolvency` | contract/contracts/factory/src/lib.rs:238-258 | From a genesis state, create, buy, collect, collect ends with pools the factory cannot cover. |
| `Lifecycle.CollectAcceptedExactly` | contract/contracts/factory/src/lib.rs:234-259 | After any run a collection is accepted if and only if the offering is the caller's, the factory holds the shares bought, and the caller's balance has room: no status, funding or earlier collection matters. |
| `Lifecycle.SettleAcceptedExactly` | contract/contracts/factory/src/lib.rs:261-287 | After any run a settlement is accepted if and only if the offering is the caller's and the positive amount is approved, held, and fits: no status, sale or collection is asked for. |
| `Admission.WithdrawAcceptedExactly` | contract/contracts/factory/src/lib.rs:360-385 | After any run a fee withdrawal is accepted if and only if the caller is the factory's admin, the offering exists, its fee pool is positive and in the factory's hands, and the admin's balance has room. |
| `Admission.EmergencyAcceptedExactly` | contract/contracts/factory/src/lib.rs:387-405 | After any run an emergency withdrawal is accepted if and only if the caller is the factory's admin, the amount positive, and what is asked can be taken: USDC held, shares the admin may receive, or an outside token that pays. |
| `Scenarios.SettledBeforeAnySale` | contract/contracts/factory/src/lib.rs:261-287 | Create, settle: the offering is settled with nothing sold. |
| `Escrow.InterestDust` | contract/contracts/factory/src/lib.rs:108-345 | After n claims totalling S the interest left is at least floor(R b/10000) - floor(S b/10000), which is not negative, and at most n - 1 units more (nothing more if n = 0): the unchecked subtraction never underflows and the dust is bounded. |
| `Escrow.SplittingAClaim` | contract/contracts/factory/src/lib.rs:323-323 | Claiming in parts never pays more interest than claiming once, and loses at most one unit per extra part, for any parts. |
| `Escrow.RepaidExactly` | contract/contracts/factory/src/lib.rs:277-347 | The principal pool of a settled offering covers all remaining holdings if and only if repayments reach the shares bought. |
| `Escrow.RepaidForever` | contract/contracts/factory/src/lib.rs:266-279 | Once an offering is settled and repaid, it stays so through any further calls. |
| `Escrow.ClaimOrderIndependence` | contract/contracts/factory/src/lib.rs:302-347 | Once an offering is repaid, after any further calls by anyone, claims in any order and split included, the principal pool covers the sum of all holdings, and no claim within a holding fails for the pool or the status. |
| `Liveness.ClaimAcceptedExactly` | contract/contracts/factory/src/lib.rs:289-358 | After any run a claim is accepted if and only if the offering is settled, the amount is positive and within holding and principal pool, the burn permit is fresh, live and signed for it, tokens and supply cover the burn, the payee's balance has room, and the factory holds the payout. |
| `Liveness.ClaimIsPaid` | contract/contracts/factory/src/lib.rs:289-358 | In a solvent state every admissible claim, on however much was repaid, succeeds and pays principal plus floored interest to the unit. |
| `Scenarios.ClaimIsAdmissible` | contract/contracts/factory/src/lib.rs:289-358 | After create, buy, settle, a claim is admissible and the factory solvent. |
| `Liveness.BuyAcceptedExactly` | contract/contracts/factory/src/lib.rs:191-232 | After any run a purchase is accepted if and only if the offering is open with as many unsold shares, the investor is registered as a verified individual and has approved and holds the price, the factory is verified and holds the shares, and the balances have room; then exactly those shares arrive. |
| `Liveness.BuyIsDelivered` | contract/contracts/factory/src/lib.rs:191-232 | As long as no accepted call took the token out of the factory other than by a sale, every admissible purchase succeeds and delivers exactly the shares bought, up to the last. |
| `Lifecycle.CreateAcceptedExactly` | contract/contracts/factory/src/lib.rs:73-189 | After any run a creation is accepted if and only if amount and rate are in range, the due ledger ahead, the shipper registered as a verified company, the id new, the fees fit and can be pulled, the address free, the factory runs compliance and is verified, and the mint permit is live and signed for this token and raise. |
| `Liveness.TrapsInRuns` | contract/contracts/factory/src/lib.rs:107-347 | In every reachable state a call traps if and only if it is a creation past its guards with a fee product that does not fit, or a claim or burn past its checks that takes the supply below the least i128; no other plain i128 operation ever overflows. |
| `Liveness.CreateTraps` | contract/contracts/factory/src/lib.rs:107-110 | A creation traps if and only if it passes its guards and one of the two fee products does not fit. |
| `Admission.CreateRefusals` | contract/contracts/factory/src/lib.rs:87-105 | A refused creation ends with the error of its first failing guard, a verified individual's with NotVerified. |
| `Admission.BuyRefusals` | contract/contracts/factory/src/lib.rs:191-205 | A refused purchase ends with the error of its first failing guard, a verified company's with NotVerified; for lack of shares if and only if there are too few. |
| `Admission.ClaimRefusals` | contract/contracts/factory/src/lib.rs:298-322 | A refused claim ends with the error of its first failing guard; for the pool if and only if holding or principal pool is too small. |
| `Admission.ShipperRefusals` | contract/contracts/factory/src/lib.rs:234-269 | A collection or settlement of a missing offering, and one that is not the caller's, each end with their own error. |
| `Admission.AdminRefusals` | contract/contracts/factory/src/lib.rs:360-391 | A call that only the admin may make is refused for the caller first, then for what is missing. |
| `Lifecycle.LateClaims` | contract/contracts/factory/src/lib.rs:306-309 | After any run a claim fails with the factory's own deadline error if and only if its amount is positive, the offering is settled and the deadline ledger is past; at the deadline ledger itself, exactly the claims that pass all the factory's guards fail with the token's error. |
| `Lifecycle.LateCreations` | contract/contracts/factory/src/lib.rs:94-98 | In any state without negative balances, for a creation past its other guards: the factory's deadline error if and only if the deadline ledger is past, the token's if and only if it is the deadline ledger and everything up to the mint goes through. |
| `Scenarios.ClaimAtItsDeadline` | contract/contracts/factory/src/lib.rs:306-309 | A claim at its deadline ledger that fails in the token, after a run in which it is otherwise in order. |
| `Scenarios.CreationAtItsDeadline` | contract/contracts/factory/src/lib.rs:94-98 | A creation at its deadline ledger that fails in the token, with all else in order. |
| `ShareBooks.TokenLedgerAgrees` | contract/contracts/factory/src/lib.rs:146-347 | After every run an offering's token supply is unsold shares plus remaining holdings plus what was minted and burned past the factory, and the factory's stock is the unsold shares plus what came in from outside less emergencies, exactly. |
| `ShareBooks.UnsoldSharesInStock` | contract/contracts/factory/src/lib.rs:199-215 | If no accepted call withdrew the token in an emergency or burned it from the factory's own balance, the factory holds at least the unsold shares; rejected attempts do not matter. |
| `ShareBooks.OfferingsEvolve` | contract/contracts/factory/src/lib.rs:191-358 | Between any two points of a run an offering keeps its terms, its status never moves back, its sales never shrink, and they are frozen once settled. |
| `ShareBooks.RunLinked` | contract/contracts/factory/src/lib.rs:118-178 | In every run each offering has a token of its own, indexed back to it, in a state the token contract can reach, bound to compliance and uncapped. |
| `Holders.HoldersWereVerified` | contract/contracts/identity-verifier/src/lib.rs:33-44 | After any run of the whole system, every holder of every share token received some of it by an accepted call at a step where the system's own registry had it verified. |
| `Signatures.SupplyChangesBoundedBySignatures` | contract/contracts/sep57/src/lib.rs:199-228 | If only signed messages verify, all supply changes of all share tokens together, over any run of the whole system, number at most the signed messages. |
| `Approvals.DrawsWithinApprovals` | contract/contracts/factory/src/lib.rs:113-275 | Over any run the factory draws from an account no more USDC than the account approved to it, what is still approved included. |
| `Approvals.ApprovalCoversUpfront` | backend/src/rwa/rwa.service.ts:309-309 | For any raise and rates, the allowance prepared off-chain, truncated as bigint division does, is at least the on-chain interest plus fee. |
| `Approvals.ApprovalMirrorsExactly` | backend/src/rwa/rwa.service.ts:295-309 | The prepared allowance equals what a creation pulls if and only if the remainders of the two fees stay below one unit together; otherwise it is one unit more. |
| `Approvals.ApprovalExceedsUpfront` | backend/src/rwa/rwa.service.ts:295-309 | Raise 10 at 950 and 50 basis points: one unit is approved and nothing is pulled. |
| `Approvals.QuotientTruncates` | backend/src/rwa/rwa.service.ts:309-309 | The division drops a remainder of the dividend's sign. |
| `Approvals.CreationIsApproved` | contract/contracts/factory/src/lib.rs:107-114 | While the prepared approval is live and unspent, no creation fails for its allowance. |
| `Effects.StepEffect` | contract/contracts/factory/src/lib.rs:73-405 | Every accepted call of the system moves USDC, for every account, by its stated amount, between the factory and the signer only and within the signer's allowance; rewrites exactly the named offering, every field as stated; makes exactly one token step; and writes one registry entry or rule if it is its admin's or operator's call to do so, and none otherwise. |
| `SystemContract.Host.Execute` | contract/contracts/factory/src/lib.rs:73-405 | Every call of the system, dispatched to the contract objects, leaves all their storage as one step of a run says; so each run theorem is one about the in-place code. |
| `Effects.CreateEffect` | contract/contracts/factory/src/lib.rs:73-189 | An accepted creation pulls exactly the upfront fees, deploys at a free address a token whose whole supply the factory holds, binds and uncaps it, and stores the new offering. |
| `Effects.BuyEffect` | contract/contracts/factory/src/lib.rs:191-232 | An accepted purchase pulls the price from the investor's allowance, moves as many shares from the factory to the investor, and raises the shares bought and that investor's own holding, filling the offering with the last share; only on an open offering with enough unsold shares. |
| `Effects.PayoutEffect` | contract/contracts/factory/src/lib.rs:234-385 | An accepted collection pays the shares bought to the offering's shipper and an accepted fee withdrawal the fee pool to the factory's admin, to nobody else. |
| `Effects.SettleEffect` | contract/contracts/factory/src/lib.rs:261-287 | An accepted settlement pulls the amount from the shipper's allowance into the principal pool and settles the offering. |
| `Effects.ClaimEffect` | contract/contracts/factory/src/lib.rs:289-358 | An accepted claim burns the shares from the investor, pays principal plus floored interest to the investor, and lowers both pools and that investor's own holding by just that. |
| `Effects.EmergencyEffect` | contract/contracts/factory/src/lib.rs:387-405 | An accepted emergency withdrawal moves USDC or a share token from the factory to the admin and touches no offering. |
| `Effects.ShareCallEffect` | contract/contracts/sep57/src/lib.rs:57-130 | A call on a share token past the factory steps that token alone and moves no USDC and no offering. |
| `Admission.ShareAcceptedExactly` | contract/contracts/sep57/src/lib.rs:57-130 | A call on a share token past the factory is accepted if and only if the token is deployed, admits the call, and a transfer is not out of the factory's account. |
| `Admission.UsdcAcceptedExactly` | contract/contracts/factory/src/token.rs:99-212 | An approval is accepted unless it would be over at once; a transfer if and only if the balance covers it and the receiver has room, on an approval only while that is live and covers it; never in the factory's name. |
| `Admission.IdentifiedExactly` | contract/contracts/identity-verifier/src/lib.rs:46-60 | An identity is set if and only if the caller is the registry's admin, and then that user's flag, role and country are what was said and no other entry changes. |
| `Admission.RulesAcceptedExactly` | contract/contracts/compliance/src/lib.rs:31-58 | Registry, bindings and caps are written by their own admin or operator only; a cap must be positive and its token bound. |
| `Offering.Created` | contract/contracts/factory/src/lib.rs:107-176 | A new offering is consistent with an empty history and holds exactly the upfront fees. |
| `Offering.BoughtOk` | contract/contracts/factory/src/lib.rs:217-224 | A purchase within the unsold shares cannot overflow, changes sales, the buyer's holding and the status as stated and no other field, keeps the invariant, and adds its price to what is held. |
| `Offering.ClaimedOk` | contract/contracts/factory/src/lib.rs:312-348 | A claim within the holding and the principal pool never takes more interest than is left, traps nowhere, changes both pools and the claimant's holding as stated and no other field, and keeps the invariant. |
| `Offering.UpfrontTraps` | contract/contracts/factory/src/lib.rs:107-110 | The fees can be computed if and only if both products fit; their sum always does. |
| `Offering.ClaimRounds` | contract/contracts/factory/src/lib.rs:323-323 | One more claim keeps total interest within one rounding per claim of the exact share. |
| `FactoryContract.Contract.CreateRwaToken` | contract/contracts/factory/src/lib.rs:73-189 | Commits the specified creation, in USDC, compliance, a fresh token and the factory's maps, or fails with the specified error and undoes every write. |
| `FactoryContract.Contract.Launch` | contract/contracts/factory/src/lib.rs:112-178 | Issues the token and registers the offering, or neither. |
| `FactoryContract.Contract.Issue` | contract/contracts/factory/src/lib.rs:112-152 | Pulls the fees and deploys, binds and mints, or none of it. |
| `FactoryContract.Contract.DeployToken` | contract/contracts/factory/src/lib.rs:118-152 | A fresh token wired to the shared contracts, with the raise minted to the factory, or compliance as before. |
| `FactoryContract.Contract.BindAndCap` | contract/contracts/factory/src/lib.rs:136-141 | Binds the token and lifts its cap, or leaves compliance as it was. |
| `FactoryContract.Contract.Register` | contract/contracts/factory/src/lib.rs:160-178 | Stores the offering and the token index and keeps all tokens distinct instances. |
| `FactoryContract.Contract.BuyShares` | contract/contracts/factory/src/lib.rs:191-232 | Commits the specified purchase across USDC, the token and the offering, or undoes everything. |
| `FactoryContract.Contract.Exchange` | contract/contracts/factory/src/lib.rs:207-215 | USDC in and shares out, or neither. |
| `FactoryContract.Contract.Purchase` | contract/contracts/factory/src/lib.rs:207-231 | Exchanges and books, or reverts USDC and all tokens. |
| `FactoryContract.Contract.RecordPurchase` | contract/contracts/factory/src/lib.rs:217-223 | Step-by-step booking in place equals the specified offering, errors included. |
| `FactoryContract.Contract.CollectFund` | contract/contracts/factory/src/lib.rs:234-259 | Commits the specified collection; the offering map is not written. |
| `FactoryContract.Contract.SettleDebt` | contract/contracts/factory/src/lib.rs:261-287 | Commits the specified settlement or undoes the pull. |
| `FactoryContract.Contract.Claim` | contract/contracts/factory/src/lib.rs:289-358 | Commits the specified claim across token, USDC and offering, or undoes everything. |
| `FactoryContract.Contract.Redeem` | contract/contracts/factory/src/lib.rs:325-342 | Burn first, payout second, or neither. |
| `FactoryContract.Contract.PayClaim` | contract/contracts/factory/src/lib.rs:325-357 | Redeems and books, or reverts USDC and all tokens. |
| `FactoryContract.Contract.RecordClaim` | contract/contracts/factory/src/lib.rs:344-348 | Three plain subtractions in place equal the specified offering, traps included. |
| `FactoryContract.Contract.WithdrawFees` | contract/contracts/factory/src/lib.rs:360-385 | Commits the specified withdrawal for the admin only. |
| `FactoryContract.Contract.EmergencyWithdraw` | contract/contracts/factory/src/lib.rs:387-405 | Commits the specified transfer of USDC, a share token, or a token from outside the system, for the admin only. |
| `FactoryContract.Contract.Save` | contract/contracts/factory/src/storage.rs:121-125 | Overwrites one entry of the offering map and nothing else in the world. |
| `UsdcContract.Contract.Approve` | contract/contracts/factory/src/token.rs:99-122 | Commits the specified allowance or fails unchanged. |
| `UsdcContract.Contract.Transfer` | contract/contracts/factory/src/token.rs:124-134 | Commits the specified movement or fails unchanged. |
| `UsdcContract.Contract.TransferFrom` | contract/contracts/factory/src/token.rs:136-141 | Commits allowance and balances together, or undoes the allowance. |
| `IdentityContract.Contract.SetIdentity` | contract/contracts/identity-verifier/src/lib.rs:46-60 | Commits the specified entry, or fails with the specified error, unchanged. |
| `ComplianceContract.Contract.BindToken` | contract/contracts/compliance/src/lib.rs:31-47 | Commits the specified binding, or fails with the specified error, unchanged. |
| `ComplianceContract.Contract.SetMaxBalance` | contract/contracts/compliance/src/lib.rs:49-58 | Commits the specified cap, or fails with the specified error, unchanged. |
| `Sep57Contract.Contract.Mint` | contract/contracts/sep57/src/lib.rs:57-73 | Commits the specified mint or undoes its writes, the nonce included. |
| `Sep57Contract.Contract.Transfer` | contract/contracts/sep57/src/lib.rs:75-101 | Commits the specified transfer or undoes its writes. |
| `Sep57Contract.Contract.Burn` | contract/contracts/sep57/src/lib.rs:103-130 | Commits the specified burn or undoes its writes, the nonce included. |
| `Sep57Contract.Contract.RequireAdminPermit` | contract/contracts/sep57/src/lib.rs:199-228 | Uses up the nonce of a live, unused, correctly signed permit, or fails unchanged. |
| `Sep57Contract.Contract.PermitMessage` | contract/contracts/sep57/src/lib.rs:230-248 | The buffer, built step by step, decodes to exactly the permit it was built for. |
| `Sep57Contract.Contract.AppendAddress` | contract/contracts/sep57/src/lib.rs:250-254 | Appends the length-prefixed address. |
| `Sep57Runs.SupplyConservation` | contract/contracts/sep57/src/lib.rs:57-130 | In every run balances are non-negative, and they sum to the supply if and only if no account ever transferred to itself. |
| `Sep57Runs.RunAccounts` | contract/contracts/sep57/src/lib.rs:64-121 | The supply is minted minus burned, and the balances sum to it plus everything ever self-transferred. |
| `Sep57Runs.SelfTransferInflates` | contract/contracts/sep57/src/lib.rs:84-90 | A run with 7 minted and 14 held. |
| `Sep57Runs.TrapsExactly` | contract/contracts/sep57/src/lib.rs:67-121 | In any run a call traps if and only if it is a burn of a positive amount with an accepted permit, within the balance, that takes the supply below the least i128. |
| `Sep57Runs.OverdrawnAfterSelfTransfer` | contract/contracts/sep57/src/lib.rs:84-121 | Only a token that some account sent to itself can be so overdrawn. |
| `Sep57Runs.BurnCanTrap` | contract/contracts/sep57/src/lib.rs:115-121 | A run after which such a burn traps. |
| `Sep57Runs.AcceptedCall` | contract/contracts/sep57/src/lib.rs:57-130 | An accepted call was permitted, verified and within cap, used its nonce, and moved balances and supply as its event says. |
| `Sep57Runs.AcceptedExactly` | contract/contracts/sep57/src/lib.rs:57-130 | In any state a token call is accepted if and only if its amount is positive, its permit good, its parties verified, the balance covers it, and receiver, supply and cap have room. |
| `Sep57Runs.BalancesFromHistory` | contract/contracts/sep57/src/lib.rs:64-121 | After any run every balance is what the accepted calls gave the account and took from it. |
| `Sep57Runs.PermitRefusals` | contract/contracts/sep57/src/lib.rs:57-60 | A permit is refused for the amount, its deadline, its nonce and its signature, in that order, each with its own error. |
| `Sep57Runs.MintRefusals` | contract/contracts/sep57/src/lib.rs:62-70 | A permitted mint is refused for its receiver, an overflow, the binding and the cap, in that order, each with its own error. |
| `Sep57Runs.BurnRefusals` | contract/contracts/sep57/src/lib.rs:115-127 | A permitted burn is refused for the balance, traps on the supply, or is refused for the binding, in that order. |
| `Sep57Runs.TransferRefusals` | contract/contracts/sep57/src/lib.rs:78-98 | A transfer is refused for its amount, its sender, its receiver, the balance, an overflow, the binding and the cap, in that order. |
| `Sep57Runs.RunPermits` | contract/contracts/sep57/src/lib.rs:199-228 | In every run accepted mints and burns carry pairwise distinct nonces, were live and signed, and had the one effect their permit spells out. |
| `Sep57Runs.OneSignatureOneEffect` | contract/contracts/sep57/src/lib.rs:199-248 | Accepted calls of any two runs of any two tokens that rest on the same message are on the same token with the same effect, and within one run are the same call. |
| `Sep57Runs.AcceptedPermitsAreSigned` | contract/contracts/sep57/src/lib.rs:208-227 | Behind every accepted mint or burn is a signed message that decodes to its permit, before the deadline. |
| `Sep57Runs.EffectsBoundedBySignatures` | contract/contracts/sep57/src/lib.rs:199-228 | A token's supply changes at most as often as there are signed messages. |
| `Sep57Runs.MessagesCounted` | contract/contracts/sep57/src/storage.rs:30-41 | Each accepted mint or burn used up a message of its own. |
| `Sep57Runs.HoldersAreVerifiedAndCapped` | contract/contracts/compliance/src/lib.rs:68-85 | Whoever holds tokens was verified at a step where it received some, and holds at most the cap in force at that step. |
| `Sep57Runs.PartiesAreVerified` | contract/contracts/identity-verifier/src/lib.rs:33-44 | No mint reaches, and no transfer leaves or reaches, an account that is not verified at that moment. |
| `Permit.RoundTrip` | contract/contracts/sep57/src/lib.rs:230-254 | The decoder recovers every permit from its message, for all amounts, nonces, deadlines and addresses. |
| `Permit.Canonical` | contract/contracts/sep57/src/lib.rs:230-254 | Every message the decoder accepts is the encoding of what it returns. |
| `Permit.Injective` | contract/contracts/sep57/src/lib.rs:230-254 | Two permits with the same message agree in every field, although both addresses vary in length. |
| `Permit.Layout` | contract/contracts/sep57/src/lib.rs:239-253 | Every field lies at its place: the tag, the action byte, each address behind its four-byte length, then 16, 8 and 4 bytes of numbers. |
| `Permit.ByteAt` | contract/contracts/sep57/src/lib.rs:244-246 | The i-th byte of a number of any sign is the number shifted down by the bytes after it, cut to eight bits. |
| `Permit.FitsExactly` | contract/contracts/sep57/src/lib.rs:244-244 | What an i128 can hold is exactly what sixteen bytes of two's complement can. |
| `Permit.BigEndianValue` | contract/contracts/sep57/src/lib.rs:244-246 | Reading a fixed-width big-endian integer gives its residue, for negative numbers too. |
| `Permit.BigEndianOfValue` | contract/contracts/sep57/src/lib.rs:244-246 | Bytes are recovered from the value they are read as. |
| `Permit.ShiftedBytesAreTwosComplement` | backend/src/blockchain/blockchain.service.ts:137-145 | Low bytes taken by repeated arithmetic shift of a number of any sign are its two's complement bytes. |
| `Permit.TakeWritten` | contract/contracts/sep57/src/lib.rs:250-254 | A length-prefixed address is read back with the rest of the message intact. |
| `PermitEncoder.BuildPermitMessage` | backend/src/blockchain/blockchain.service.ts:107-127 | For any integers the off-chain bytes are the on-chain encoding of the values cut to their widths; in range they are the permit's own message. |
| `PermitEncoder.BigIntToBeBytes` | scripts/src/lib.ts:168-176 | The byte loop yields the two's complement big-endian bytes for any bigint and length. |
| `PermitEncoder.Uint32ToBeBytes` | backend/src/blockchain/blockchain.service.ts:147-151 | The low 32 bits, big-endian. |
| `PermitEncoder.EncodeLenPrefixedStr` | backend/src/blockchain/blockchain.service.ts:129-135 | The same length prefix and bytes as on-chain. |
| `PermitEncoder.Concat` | backend/src/blockchain/blockchain.service.ts:153-162 | The joined parts, in order, whatever their number and lengths. |
| `PermitEncoder.NextNonce` | backend/src/blockchain/blockchain.service.ts:164-169 | A u64 whose 8-byte encoding is the random bytes it was made from. |
| `Poller.RowsUniqueCursorMonotone` | backend/src/events/events.service.ts:109-189 | Over any run of rounds, cut off anywhere or not: rows are unique by transaction, offering and type, none is lost, and the cursor never goes back. |
| `Poller.PollerCompleteExactly` | backend/src/events/events.service.ts:109-189 | Over any run of honest rounds, with crashes and clamped starts anywhere, every parseable event up to the cursor is stored if and only if no round that ran to its end left out an event of a full page's last ledger, or skipped one more than 17,000 ledgers back, that no cut-off round had stored. |
| `Poller.RowsSayWhatHappened` | backend/src/events/events.service.ts:146-262 | Over any run of honest rounds no event has two rows, and every row says what some event of the chain says: kind, offering, investor, amount, transaction and ledger. |
| `Poller.ParsedExactly` | backend/src/events/events.service.ts:209-262 | An event is parsed if and only if some row says what it says, by name, offering and investor, and then it is that row that is stored. |
| `Poller.ReadIsStored` | backend/src/events/events.service.ts:146-174 | Every parseable event a round got to is stored, whether or not the round ran to its end. |
| `Poller.CursorExactly` | backend/src/events/events.service.ts:176-189 | A finished round moves the cursor up to the reported ledger after a short page and to the last event's ledger after a full one; any other round leaves it. |
| `Poller.StartExactly` | backend/src/events/events.service.ts:115-126 | A round starts after the cursor, or 2,000 ledgers back without one, and skips ledgers if and only if its cursor is more than 17,001 behind the latest. |
| `Poller.PollerIsComplete` | backend/src/events/events.service.ts:109-189 | After any run of honest rounds that lose nothing, with crashes anywhere, every parseable event from the first start ledger up to the cursor is stored. |
| `Poller.FullPageExactly` | backend/src/events/events.service.ts:179-182 | After a full page, also one partly stored by a round cut off inside it, everything up to the new cursor is stored if and only if no parseable event of the page's last ledger lies beyond the page. |
| `Poller.BusyLedgerLosesAnEvent` | backend/src/events/events.service.ts:139-183 | A ledger with 101 purchases: 100 are stored and the cursor moves past the last. |
| `EventsService.Service.PollOnce` | backend/src/events/events.service.ts:109-198 | The loop with its writes one by one, stopped anywhere, leaves the store the specification says and other contracts' cursors alone; it reports true exactly when rows were added. |
| `EventsService.RwaRepository.EventExists` | backend/src/rwa/rwa.repository.ts:76-88 | True exactly when a row with that key is stored. |
| `EventsService.RwaRepository.CreateEvent` | backend/src/rwa/rwa.repository.ts:19-31 | Appends the row and changes no other. |
| `EventsService.RwaRepository.UpsertCursor` | backend/src/rwa/rwa.repository.ts:103-123 | Creates or updates the one contract's cursor; an update without an event id keeps the stored one; other cursors and the rows stay. |
| `Failover.RpcPool.WithRpcRetry` | backend/src/blockchain/blockchain.service.ts:490-517 | At most max(4, 2n) attempts, rotating from the active endpoint; the first non-transient outcome is the result; it fails transiently only after trying every endpoint at least twice, and the active index stays in range. |
| `Failover.EveryEndpointTwice` | backend/src/blockchain/blockchain.service.ts:494-506 | A rotation of max(4, 2n) attempts visits every endpoint at least twice from any start. |

## Left out

- Initialisation, metadata getters and views: each is settled by reading one body.
- Storage lifetimes, resource fees, contract upgrades, reentrancy and the internals of `require_auth`: host matters; kept is only who must sign, that the factory signs nothing for outsiders, and that failure reverts.
- Ed25519, strkey, XDR and the derivation of contract addresses: foreign libraries, kept as opaque functions.
- USDC burning and the stand-in's test helper for minting: `Usdc.Issue` stands for the issuer's credit and refuses negative amounts, as SEP-0041 requires of amounts.
- The self-transfer of the stand-in USDC credits twice, as its code does; the conservation results are about the factory's balance, which no such transfer touches because the factory signs none.
- Tokens from outside the system: an emergency withdrawal of one succeeds or fails as an opaque function says, and its ledger is not modelled.
- Event topics and payload encoding: events are the records they carry.
- The sep57, compliance and identity contracts' own initialisation inside a creation: a deployed share token starts initialised.
- PermitEncoder.EncodeText: only text whose UTF-8 encoding is one byte per character, which strkeys and the domain tag are.
- PermitEncoder.NextNonce: the randomness is an argument, and the override by an environment variable is not modelled.
- PermitEncoder.BuildPermitMessage: deadlines are integers; a fractional number is not modelled.
- Failover.RpcPool.WithRpcRetry: one caller at a time; the waits between attempts and the classification of errors are left to the caller's function.
- EventsService.Service.PollOnce: the collateral update after a creation event, the adaptive waiting and the log lines are not modelled, and one poller runs at a time.
- EventsService.RwaRepository.UpsertCursor: the row's own generated id, which nothing reads, is not modelled; a stored cursor of zero is the same as none, as it is for the code.
- Poller.PollerIsComplete: holds for rounds whose short pages reach the ledger they report; a page is a stretch of the chain's events from the start ledger on.
- Poller.PollerCompleteExactly: also takes it that no two events share a key, and that the RPC reports no latest ledger before the start it was asked for.
- The frontend, the generated contract bindings, and the wallet, identity-provider, storage and session services of the backend: user interface, machine output and network clients.
