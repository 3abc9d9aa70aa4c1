/** Properties of the license lifecycle that relate several calls: the invariant
    every transition keeps, last-write-wins and idempotence, how a proposal travels
    to the active slot by accept and by approve, and what the refund guard implies
    for repeated calls. */
module LifecycleProperties {
  import opened NftTypes
  import opened LicenseLifecycle

  // ------------------------------------------------------------ invariant

  /** A successful mint keeps every minted token licensed, and the new token's
      license query returns the license it was minted with. */
  lemma MintKeepsTokensLicensed(s: ContractState, tokenId: TokenId, metadata: TokenMetadata, license: TokenLicense,
                                receiverId: AccountId, perpetualRoyalties: Option<map<AccountId, u32>>)
    requires LicensedTokens(s)
    requires Mint(s, tokenId, metadata, license, receiverId, perpetualRoyalties).Ok?
    ensures var r := Mint(s, tokenId, metadata, license, receiverId, perpetualRoyalties).value;
      && LicensedTokens(r)
      && LicenseOf(r, tokenId) == Ok(Some(JsonTokenLicense(tokenId, receiverId, license)))
  {
  }

  /** Replace, propose, accept and approve never remove an active license, so each
      keeps every minted token licensed. */
  lemma TransitionsKeepTokensLicensed(s: ContractState, tokenId: TokenId, license: TokenLicense, receiverId: AccountId)
    requires LicensedTokens(s)
    ensures LicensedTokens(Replace(s, tokenId, license))
    ensures LicensedTokens(Propose(s, tokenId, license))
    ensures Accept(s, tokenId).Ok? ==> LicensedTokens(Accept(s, tokenId).value)
    ensures Approve(s, tokenId, receiverId).Ok? ==> LicensedTokens(Approve(s, tokenId, receiverId).value)
  {
  }

  /** Under the invariant `nft_license` never panics, and `nft_proposed_license`
      panics exactly for a minted token with nothing pending. */
  lemma QueriesUnderInvariant(s: ContractState, tokenId: TokenId)
    requires LicensedTokens(s)
    ensures LicenseOf(s, tokenId).Ok?
    ensures tokenId in s.tokensById ==> LicenseOf(s, tokenId).value.Some?
    ensures ProposedLicenseOf(s, tokenId).Err? <==>
      tokenId in s.tokensById && tokenId !in s.tokenProposedLicenseById
  {
  }

  // ---------------------------------------------- replace and propose

  /** Replacing twice with the same license is replacing once. */
  lemma ReplaceIdempotent(s: ContractState, tokenId: TokenId, license: TokenLicense)
    ensures Replace(Replace(s, tokenId, license), tokenId, license) == Replace(s, tokenId, license)
  {
  }

  /** Of two replaces of one token, the later wins. */
  lemma ReplaceLastWriteWins(s: ContractState, tokenId: TokenId, first: TokenLicense, second: TokenLicense)
    ensures Replace(Replace(s, tokenId, first), tokenId, second) == Replace(s, tokenId, second)
  {
  }

  /** Of two proposals for one token, the later wins: one proposal is left. */
  lemma ProposeLastWriteWins(s: ContractState, tokenId: TokenId, first: TokenLicense, second: TokenLicense)
    ensures Propose(Propose(s, tokenId, first), tokenId, second) == Propose(s, tokenId, second)
  {
  }

  /** Replace and propose write different tables, so their order does not matter. */
  lemma ReplaceProposeCommute(s: ContractState, t: TokenId, u: TokenId, license: TokenLicense, candidate: TokenLicense)
    ensures Replace(Propose(s, u, candidate), t, license) == Propose(Replace(s, t, license), u, candidate)
  {
  }

  /** After a replace, `nft_license` of a minted token reports the new license. */
  lemma ReplaceThenQuery(s: ContractState, tokenId: TokenId, license: TokenLicense)
    requires tokenId in s.tokensById
    ensures LicenseOf(Replace(s, tokenId, license), tokenId)
      == Ok(Some(JsonTokenLicense(tokenId, s.tokensById[tokenId].ownerId, license)))
  {
  }

  /** A proposal made before the token is minted survives the mint: the new token
      starts with that proposal pending, and accepting it installs it. */
  lemma ProposalBeforeMintSurvives(s: ContractState, tokenId: TokenId, candidate: TokenLicense,
                                   metadata: TokenMetadata, license: TokenLicense, receiverId: AccountId)
    requires tokenId !in s.tokensById
    ensures var minted := Mint(Propose(s, tokenId, candidate), tokenId, metadata, license, receiverId, None);
      && minted.Ok?
      && ProposedLicenseOf(minted.value, tokenId) == Ok(Some(JsonTokenLicense(tokenId, receiverId, candidate)))
      && Accept(minted.value, tokenId).Ok?
      && LicenseOf(Accept(minted.value, tokenId).value, tokenId)
         == Ok(Some(JsonTokenLicense(tokenId, receiverId, candidate)))
  {
  }

  // ------------------------------------------------ accept and approve

  /** Accepting a fresh proposal has the effect of replacing the active license
      with it: the proposal table returns to what it was. */
  lemma ProposeThenAccept(s: ContractState, tokenId: TokenId, candidate: TokenLicense)
    requires tokenId !in s.tokenProposedLicenseById
    ensures Accept(Propose(s, tokenId, candidate), tokenId) == Ok(Replace(s, tokenId, candidate))
  {
    var proposed := Propose(s, tokenId, candidate);
    assert proposed.tokenProposedLicenseById - {tokenId} == s.tokenProposedLicenseById;
  }

  /** After accept, nothing is pending, so a second accept panics. */
  lemma AcceptTwiceFails(s: ContractState, tokenId: TokenId)
    requires Accept(s, tokenId).Ok?
    ensures Accept(Accept(s, tokenId).value, tokenId) == Err(NoProposal)
  {
  }

  /** Approve by the owner after a propose installs the candidate and leaves it
      pending: the proposal query still reports it. */
  lemma ProposeThenApprove(s: ContractState, tokenId: TokenId, candidate: TokenLicense)
    requires tokenId in s.tokensById
    ensures var owner := s.tokensById[tokenId].ownerId;
      var approved := Approve(Propose(s, tokenId, candidate), tokenId, owner);
      && approved == Ok(Replace(Propose(s, tokenId, candidate), tokenId, candidate))
      && LicenseOf(approved.value, tokenId) == Ok(Some(JsonTokenLicense(tokenId, owner, candidate)))
      && ProposedLicenseOf(approved.value, tokenId) == Ok(Some(JsonTokenLicense(tokenId, owner, candidate)))
  {
  }

  /** Because approve leaves the proposal pending, approving again changes nothing. */
  lemma ApproveTwiceIsApproveOnce(s: ContractState, tokenId: TokenId, receiverId: AccountId)
    requires Approve(s, tokenId, receiverId).Ok?
    ensures Approve(Approve(s, tokenId, receiverId).value, tokenId, receiverId) == Approve(s, tokenId, receiverId)
  {
    var once := Approve(s, tokenId, receiverId).value;
    assert once.tokensById == s.tokensById;
    assert once.tokenProposedLicenseById == s.tokenProposedLicenseById;
    var candidate := s.tokenProposedLicenseById[tokenId];
    assert once.tokenLicenseById[tokenId := candidate] == once.tokenLicenseById;
  }

  /** Accept and an allowed approve install the same active license; they differ
      only in whether the proposal stays pending. */
  lemma AcceptAndApproveAgree(s: ContractState, tokenId: TokenId, receiverId: AccountId)
    requires Approve(s, tokenId, receiverId).Ok?
    ensures Accept(s, tokenId).Ok?
    ensures Accept(s, tokenId).value.tokenLicenseById == Approve(s, tokenId, receiverId).value.tokenLicenseById
    ensures Approve(s, tokenId, receiverId).value.tokenProposedLicenseById == s.tokenProposedLicenseById
    ensures Accept(s, tokenId).value.tokenProposedLicenseById == s.tokenProposedLicenseById - {tokenId}
  {
  }

  /** With nothing pending, accept panics, and so does approve once the token and
      owner checks pass. */
  lemma NoProposalFails(s: ContractState, tokenId: TokenId, receiverId: AccountId)
    requires tokenId !in s.tokenProposedLicenseById
    ensures Accept(s, tokenId) == Err(NoProposal)
    ensures tokenId in s.tokensById && receiverId == s.tokensById[tokenId].ownerId ==>
      Approve(s, tokenId, receiverId) == Err(NoProposal)
  {
  }

  // ------------------------------------------------ storage accounting

  /** Where the license mutators call `refund_deposit`, mint's unguarded
      subtraction would give the same amount. */
  lemma GuardedRefundIsTheGrowth(before: nat, after: nat)
    requires GrowthRefund(before, after).Some?
    ensures UsageDelta(before, after) == Ok(GrowthRefund(before, after).value)
  {
  }

  /** A repeated replace leaves the storage reading where it was, so the second
      call requests no refund, whatever the meter. */
  lemma RepeatedReplaceRefundsNothing(s: ContractState, tokenId: TokenId, license: TokenLicense,
                                      storageUsage: ContractState -> nat)
    ensures var once := Replace(s, tokenId, license);
      GrowthRefund(storageUsage(once), storageUsage(Replace(once, tokenId, license))) == None
  {
    ReplaceIdempotent(s, tokenId, license);
  }

  /** Likewise a repeated approve by the owner requests no refund. */
  lemma RepeatedApproveRefundsNothing(s: ContractState, tokenId: TokenId, receiverId: AccountId,
                                      storageUsage: ContractState -> nat)
    requires Approve(s, tokenId, receiverId).Ok?
    ensures var once := Approve(s, tokenId, receiverId).value;
      && Approve(once, tokenId, receiverId).Ok?
      && GrowthRefund(storageUsage(once), storageUsage(Approve(once, tokenId, receiverId).value)) == None
  {
    ApproveTwiceIsApproveOnce(s, tokenId, receiverId);
  }

  // ----------------------------------------------------------- scenario

  /** Mint "A" with v1, propose v2, approve by the owner, then replace with v3:
      the active license ends as v3 and, since approve keeps the proposal, v2 is
      still pending. */
  lemma EndToEnd(s: ContractState, metadata: TokenMetadata, owner: AccountId)
    requires "A" !in s.tokensById
    ensures var v1, v2, v3 := TokenLicense("v1"), TokenLicense("v2"), TokenLicense("v3");
      var minted := Mint(s, "A", metadata, v1, owner, None);
      && minted.Ok?
      && var approved := Approve(Propose(minted.value, "A", v2), "A", owner);
      && approved.Ok?
      && LicenseOf(approved.value, "A") == Ok(Some(JsonTokenLicense("A", owner, v2)))
      && var replaced := Replace(approved.value, "A", v3);
      && LicenseOf(replaced, "A") == Ok(Some(JsonTokenLicense("A", owner, v3)))
      && ProposedLicenseOf(replaced, "A") == Ok(Some(JsonTokenLicense("A", owner, v2)))
  {
  }
}
