# NFT license lifecycle — a Dafny model

This project models the license-handling core of a NEAR NFT contract. The contract
keeps its state in keyed tables:

- `tokens_by_id`: token id → token record (owner, approvals, next approval id, royalty map)
- `token_metadata_by_id`: token id → metadata
- `token_license_by_id`: token id → active license
- `token_proposed_license_by_id`: token id → the one pending (proposed) license
- `tokens_per_owner`: the owner index that minting extends

The model covers `nft_mint`, which seeds these tables, and the calls that move licenses
around:

- propose: store a candidate license as the pending one
- accept and approve: copy the pending license into the active slot
- update: overwrite the active license
- two read-only queries

Each mutating call reads the host's storage usage before and after its writes. It calls
`refund_deposit` with the growth. The license calls do this only when usage grew; mint
does it always.

The model is in four files:

- `types.dfy` (module `NftTypes`): identifiers, the token record, and the opaque metadata
  and license values. Also the panics a call can raise, as an `Error` datatype.
- `lifecycle.dfy` (module `LicenseLifecycle`): the tables as one value, `ContractState`,
  and every call as a pure function of it. A function that can panic returns
  `Result<ContractState>`. The two queries and the two refund rules are here as well.
- `contract.dfy` (module `NftContract`): class `Contract`. Its fields are the tables, and
  its methods update them in place the way the Rust `&mut self` methods do. Each method
  is proved to leave `State()` equal to the matching `LicenseLifecycle` transition and
  to return the refund the rule gives.
- `properties.dfy` (module `LifecycleProperties`): lemmas that relate several calls.

Modelling choices:

- A NEAR panic aborts the call, and the host undoes every write the call made. So every
  failing method is proved to leave the object unchanged. Mint can panic after its
  writes. The model then restores the saved tables explicitly (`Contract.Restore`).
- `env::storage_usage()` is a host call. Every entry point (each `Nft…` method) takes it
  as a parameter `storageUsage: ContractState -> nat`, which is an arbitrary function of
  the tables. The `Internal…` helpers and `Restore` do not read storage usage, as in the
  source, and take no meter.
- The amount passed to `refund_deposit` is the method's result. For the license calls it
  is `Option<nat>`, where `None` means `refund_deposit` is not called. For mint it is the
  `nat` difference.
- `env::predecessor_account_id()` is the parameter `predecessor`.
- Both `nft_update_license` and both `nft_propose_license` are modelled, one from
  `mint.rs` and one from `license.rs`. The `mint.rs` versions are named `…Inline`, since
  they write the table directly. Each pair is proved to have the same effect on the
  tables. Rust does not accept two inherent methods with one name on one type. Which pair
  the crate builds depends on `lib.rs`, which is not part of this model.

Behaviour of the code that the model keeps as written:

- Approve leaves the proposal pending (`license.rs:169-174`). Only accept removes it
  (`mint.rs:129`). See `ProposeThenApprove`, `ApproveTwiceIsApproveOnce` and `EndToEnd`.
- Propose and update do not check that the token exists. They do not check who calls,
  either. A proposal stored for a token that has not been minted yet is still pending
  after the mint (`ProposalBeforeMintSurvives`).
- Accept has no authorization check. Approve's one check compares the `receiver_id`
  argument with the owner. It does not compare the caller. No further policy is invented.
- Charging for storage and refunding the rest happens inside `refund_deposit`.
  `refund_deposit` is not part of this model.

## Model

| member | source | states |
|---|---|---|
| `LicenseLifecycle.RoyaltyOf` | nft-contract/src/mint.rs:12-23 | more than 6 perpetual royalties panic; otherwise the royalty map is the supplied one, or empty when none is given, and has at most 6 entries |
| `NftContract.BuildRoyalty` | nft-contract/src/mint.rs:12-23 | the insertion loop over the supplied map produces exactly RoyaltyOf: every supplied entry and no other |
| `LicenseLifecycle.AddTokenToOwner` | nft-contract/src/mint.rs:50-51 | the owner's set gains the token id; every other owner's set is unchanged |
| `LicenseLifecycle.Mint` | nft-contract/src/mint.rs:6-51 | mint fails with TooManyRoyalties when there are 7 or more royalties, and with TokenAlreadyExists for a token already in tokens_by_id. Otherwise the token has owner = receiver, no approvals, next approval id 0 and the supplied (or empty) royalty map. Its metadata and active license are the supplied ones, and the owner index is AddTokenToOwner's result for the receiver. The proposal table is untouched, and no other token's entries change |
| `NftContract.Contract.NftMint` | nft-contract/src/mint.rs:5-78 | the tables become Mint's result and the refund request is after − before. A panic (royalties, duplicate token, or usage that shrank under the u64 subtraction) leaves every table as it was |
| `LicenseLifecycle.UsageDelta` | nft-contract/src/mint.rs:73-77 | the u64 difference after − before is the growth when usage did not shrink; otherwise it is an underflow panic |
| `LicenseLifecycle.GrowthRefund` | nft-contract/src/license.rs:38-43 | refund_deposit is called exactly when usage grew, and then with an amount > 0 that is exactly the growth |
| `LicenseLifecycle.Replace` | nft-contract/src/license.rs:176-180 | the token's active license becomes the given one, with no existence or owner check; every other token's license, the proposals, the token records, the metadata and the owner index are unchanged |
| `LicenseLifecycle.Propose` | nft-contract/src/license.rs:163-167 | the token's pending proposal becomes the candidate, replacing any earlier one, with no existence check; other proposals, the active licenses and the token tables are unchanged |
| `LicenseLifecycle.AdoptProposal` | nft-contract/src/license.rs:169-174 | fails with NoProposal exactly when nothing is pending; otherwise it equals Replace with the pending proposal, and the proposal table is unchanged |
| `LicenseLifecycle.Accept` | nft-contract/src/mint.rs:118-129 | fails with NoProposal exactly when nothing is pending; otherwise the active license becomes the old proposal and the proposal is removed; every other entry and the token tables are unchanged |
| `LicenseLifecycle.Approve` | nft-contract/src/license.rs:46-60 | fails with NoToken for an unminted token, with NotOwner when receiver ≠ owner, and with NoProposal when nothing is pending; it succeeds exactly when all three checks pass, and then it is AdoptProposal |
| `LicenseLifecycle.LicenseOf` | nft-contract/src/license.rs:129-144 | None for an unminted token; for a minted token with an active license exactly Some(token id, owner, active license); for a minted one without, a NoLicense panic |
| `LicenseLifecycle.ProposedLicenseOf` | nft-contract/src/license.rs:146-162 | None for an unminted token; for a minted one a panic exactly when the active license (NoLicense, checked first) or the proposal (NoProposal) is missing; when both are present, exactly Some(token id, owner, proposal) |
| `NftContract.Contract.NftUpdateLicenseInline` | nft-contract/src/mint.rs:80-116 | the tables become Replace's result, whatever the caller and whether or not the token exists; the refund follows GrowthRefund |
| `NftContract.Contract.NftAcceptLicense` | nft-contract/src/mint.rs:118-157 | with nothing pending, a NoProposal panic and unchanged tables; otherwise the tables become Accept's result and the refund follows GrowthRefund |
| `NftContract.Contract.NftProposeLicenseInline` | nft-contract/src/mint.rs:159-200 | both arms of the caller test give Propose's result, so the effect does not depend on the caller; the refund follows GrowthRefund |
| `NftContract.Contract.NftUpdateLicense` | nft-contract/src/license.rs:8-44 | the tables become Replace's result (the same effect as the mint.rs variant); the refund follows GrowthRefund |
| `NftContract.Contract.NftApproveLicense` | nft-contract/src/license.rs:46-89 | each failure of Approve (NoToken, NotOwner, NoProposal) is returned with the tables unchanged; otherwise the tables become Approve's result and the refund follows GrowthRefund |
| `NftContract.Contract.NftProposeLicense` | nft-contract/src/license.rs:91-127 | the tables become Propose's result (the same effect as the mint.rs variant); the refund follows GrowthRefund |
| `NftContract.Contract.InternalProposeLicense` | nft-contract/src/license.rs:163-167 | remove then insert gives Propose's result; the account argument is ignored |
| `NftContract.Contract.InternalUpdateLicense` | nft-contract/src/license.rs:169-174 | the unwrap of a missing proposal panics with the tables unchanged; otherwise the tables become AdoptProposal's result |
| `NftContract.Contract.InternalReplaceLicense` | nft-contract/src/license.rs:176-180 | remove then insert gives Replace's result; the account argument is ignored |
| `LifecycleProperties.MintKeepsTokensLicensed` | nft-contract/src/mint.rs:37-46 | a successful mint keeps every minted token licensed, and nft_license of the new token returns (token id, receiver, the minted license) |
| `LifecycleProperties.TransitionsKeepTokensLicensed` | nft-contract/src/license.rs:163-180 | replace, propose, accept and approve each keep every minted token licensed |
| `LifecycleProperties.QueriesUnderInvariant` | nft-contract/src/license.rs:129-162 | while every minted token is licensed, nft_license never panics, and nft_proposed_license panics exactly for a minted token with nothing pending |
| `LifecycleProperties.ReplaceIdempotent` | nft-contract/src/mint.rs:87-88 | updating twice with the same license is the same as updating once |
| `LifecycleProperties.ReplaceLastWriteWins` | nft-contract/src/license.rs:176-180 | of two updates of one token, the later one wins |
| `LifecycleProperties.ProposeLastWriteWins` | nft-contract/src/license.rs:163-167 | of two proposals for one token, the later one wins and only one proposal is left |
| `LifecycleProperties.ReplaceProposeCommute` | nft-contract/src/license.rs:163-180 | replace and propose write different tables, so they commute |
| `LifecycleProperties.ReplaceThenQuery` | nft-contract/src/license.rs:130-144 | after an update of a minted token, nft_license reports the new license with the token's owner |
| `LifecycleProperties.ProposalBeforeMintSurvives` | nft-contract/src/mint.rs:44-48 | a proposal stored before the token is minted is still pending after the mint, and accepting it installs it |
| `LifecycleProperties.ProposeThenAccept` | nft-contract/src/mint.rs:125-129 | accepting a fresh proposal has the same effect as an update with the candidate, and the proposal table returns to what it was |
| `LifecycleProperties.AcceptTwiceFails` | nft-contract/src/mint.rs:125-129 | after an accept nothing is pending, so a second accept panics with NoProposal |
| `LifecycleProperties.ProposeThenApprove` | nft-contract/src/license.rs:53-60 | a propose followed by the owner's approve installs the candidate, and nft_proposed_license still reports it |
| `LifecycleProperties.ApproveTwiceIsApproveOnce` | nft-contract/src/license.rs:169-174 | since the proposal stays pending, a second approve changes nothing |
| `LifecycleProperties.AcceptAndApproveAgree` | nft-contract/src/license.rs:169-174 | when approve succeeds, accept succeeds too and installs the same active licenses; approve keeps the proposal table and accept removes the token's entry |
| `LifecycleProperties.NoProposalFails` | nft-contract/src/mint.rs:125 | with nothing pending, accept panics with NoProposal, and so does approve by the owner of a minted token |
| `LifecycleProperties.GuardedRefundIsTheGrowth` | nft-contract/src/license.rs:84-88 | whenever the guard lets refund_deposit be called, its amount equals the unguarded after − before |
| `LifecycleProperties.RepeatedReplaceRefundsNothing` | nft-contract/src/license.rs:39-43 | a repeated identical update requests no refund, whatever the storage meter |
| `LifecycleProperties.RepeatedApproveRefundsNothing` | nft-contract/src/license.rs:84-88 | a repeated approve succeeds and requests no refund, whatever the storage meter |
| `LifecycleProperties.EndToEnd` | nft-contract/src/license.rs:46-180 | mint "A" with v1, propose v2, approve by the owner, then update with v3: the active license ends as v3, and v2 is still pending |

## Left out

- Event logs (`EventLog`, `NftMintLog` and the license log records, `env::log_str`) and the `println!` tracing: these only format text for the host.
- The `authorized_id` argument of the `license.rs` calls, and the `receiver_id` of the two update calls: they reach only the event log.
- `refund_deposit` is not part of this model. The methods return the amount they pass to it. They do not model its panic when too little is attached. A call that panics there is rolled back by the host, the same as any other panic.
- `env::storage_usage()` is a host call. It is the `storageUsage` parameter, and its u64 range is not modelled.
- `NftContract.Contract.NftMint`: models the u64 `after - before` as a panic when usage shrank. This assumes the crate is built with overflow checks. Its `Cargo.toml` is not part of this model. Without overflow checks the subtraction would wrap.
- `internal_add_token_to_owner` is not part of this model. Its effect is modelled as adding the token id to the receiver's set (`AddTokenToOwner`).
- Metadata and license contents are opaque strings. Approval entries are never read or written here beyond minting the empty table.
- Iteration order of the royalty `HashMap`: the loop takes the keys in an arbitrary order, and the result is proved not to depend on it.
- The commented-out `request_approval` (`license.rs:182-195`) is not modelled. Neither is the `#[near_bindgen]` and `#[payable]` plumbing.
- No authorization policy beyond approve's owner comparison is modelled. The TODOs at `mint.rs:85` and `mint.rs:164` are not implemented.
