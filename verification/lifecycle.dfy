/** The contract's persistent tables as one value, and every call of the license
    lifecycle as a pure function of it: mint, replace (update), propose, the two
    ways of moving a proposal into the active slot (accept and approve), the two
    read-only queries, and the refund amounts derived from the storage meter.
    The class in NftContract is proved to perform exactly these transitions. */
module LicenseLifecycle {
  import opened NftTypes

  /** The five keyed tables of the contract. */
  datatype ContractState = ContractState(
    tokensPerOwner: map<AccountId, set<TokenId>>,
    tokensById: map<TokenId, Token>,
    tokenMetadataById: map<TokenId, TokenMetadata>,
    tokenLicenseById: map<TokenId, TokenLicense>,
    tokenProposedLicenseById: map<TokenId, TokenLicense>)

  /** The most perpetual royalty entries a token may carry. */
  const MAX_ROYALTIES: nat := 6

  /** The owner index, the token records and the metadata agree in `s` and `r`. */
  predicate SameTokens(s: ContractState, r: ContractState)
  {
    && r.tokensPerOwner == s.tokensPerOwner
    && r.tokensById == s.tokensById
    && r.tokenMetadataById == s.tokenMetadataById
  }

  /** The lifecycle invariant: every minted token has an active license. */
  predicate LicensedTokens(s: ContractState)
  {
    forall t :: t in s.tokensById ==> t in s.tokenLicenseById
  }

  // ---------------------------------------------------------------- mint

  /** The royalty map a new token gets: the supplied one, or an empty one when none
      is supplied; more than MAX_ROYALTIES entries is a panic. */
  function RoyaltyOf(perpetualRoyalties: Option<map<AccountId, u32>>): (r: Result<map<AccountId, u32>>)
    ensures r.Err? <==> perpetualRoyalties.Some? && |perpetualRoyalties.value| > MAX_ROYALTIES
    ensures r.Err? ==> r.error == TooManyRoyalties
    ensures r.Ok? ==> |r.value| <= MAX_ROYALTIES
    ensures r.Ok? && perpetualRoyalties.None? ==> r.value == map[]
    ensures r.Ok? && perpetualRoyalties.Some? ==> r.value == perpetualRoyalties.value
  {
    match perpetualRoyalties
    case None => Ok(map[])
    case Some(royalties) => if |royalties| < 7 then Ok(royalties) else Err(TooManyRoyalties)
  }

  /** The owner index after `tokenId` is recorded as one of `accountId`'s tokens. */
  function AddTokenToOwner(owners: map<AccountId, set<TokenId>>, accountId: AccountId, tokenId: TokenId)
    : (r: map<AccountId, set<TokenId>>)
    ensures accountId in r && tokenId in r[accountId]
    ensures accountId in owners ==> r[accountId] == owners[accountId] + {tokenId}
    ensures accountId !in owners ==> r[accountId] == {tokenId}
    ensures forall a :: a != accountId ==> Lookup(r, a) == Lookup(owners, a)
  {
    var held := if accountId in owners then owners[accountId] else {};
    owners[accountId := held + {tokenId}]
  }

  /** `nft_mint`: a fresh token owned by `receiverId`, with no approvals, approval
      counter 0 and the given royalties, together with its metadata and its first
      license. The proposal table is not touched. */
  function Mint(s: ContractState, tokenId: TokenId, metadata: TokenMetadata, license: TokenLicense,
                receiverId: AccountId, perpetualRoyalties: Option<map<AccountId, u32>>): (r: Result<ContractState>)
    ensures r.Ok? <==> RoyaltyOf(perpetualRoyalties).Ok? && tokenId !in s.tokensById
    ensures RoyaltyOf(perpetualRoyalties).Err? ==> r == Err(TooManyRoyalties)
    ensures RoyaltyOf(perpetualRoyalties).Ok? && tokenId in s.tokensById ==> r == Err(TokenAlreadyExists)
    ensures r.Ok? ==> tokenId in r.value.tokensById
    ensures r.Ok? ==> var token := r.value.tokensById[tokenId];
      && token.ownerId == receiverId
      && token.approvedAccountIds == map[]
      && token.nextApprovalId == 0
      && token.royalty == (if perpetualRoyalties.Some? then perpetualRoyalties.value else map[])
    ensures r.Ok? ==> Lookup(r.value.tokenMetadataById, tokenId) == Some(metadata)
    ensures r.Ok? ==> Lookup(r.value.tokenLicenseById, tokenId) == Some(license)
    ensures r.Ok? ==> r.value.tokenProposedLicenseById == s.tokenProposedLicenseById
    ensures r.Ok? ==> forall u :: u != tokenId ==>
      && Lookup(r.value.tokensById, u) == Lookup(s.tokensById, u)
      && Lookup(r.value.tokenMetadataById, u) == Lookup(s.tokenMetadataById, u)
      && Lookup(r.value.tokenLicenseById, u) == Lookup(s.tokenLicenseById, u)
    ensures r.Ok? ==> r.value.tokensPerOwner == AddTokenToOwner(s.tokensPerOwner, receiverId, tokenId)
  {
    match RoyaltyOf(perpetualRoyalties)
    case Err(e) => Err(e)
    case Ok(royalty) =>
      if tokenId in s.tokensById then Err(TokenAlreadyExists)
      else
        var token := Token(receiverId, map[], 0, royalty);
        Ok(s.(tokensById := s.tokensById[tokenId := token],
              tokenMetadataById := s.tokenMetadataById[tokenId := metadata],
              tokenLicenseById := s.tokenLicenseById[tokenId := license],
              tokensPerOwner := AddTokenToOwner(s.tokensPerOwner, receiverId, tokenId)))
  }

  // ------------------------------------------------- license transitions

  /** `internal_replace_license` and the `nft_update_license` of mint.rs: the active
      license of `tokenId` becomes `license`, with no check that the token exists or
      who is asking; nothing else changes. */
  function Replace(s: ContractState, tokenId: TokenId, license: TokenLicense): (r: ContractState)
    ensures Lookup(r.tokenLicenseById, tokenId) == Some(license)
    ensures forall u :: u != tokenId ==> Lookup(r.tokenLicenseById, u) == Lookup(s.tokenLicenseById, u)
    ensures SameTokens(s, r) && r.tokenProposedLicenseById == s.tokenProposedLicenseById
  {
    s.(tokenLicenseById := s.tokenLicenseById[tokenId := license])
  }

  /** `internal_propose_license` and the `nft_propose_license` of mint.rs: the pending
      proposal of `tokenId` becomes `candidate`, replacing any earlier one, with no
      check that the token exists; the active license is untouched. */
  function Propose(s: ContractState, tokenId: TokenId, candidate: TokenLicense): (r: ContractState)
    ensures Lookup(r.tokenProposedLicenseById, tokenId) == Some(candidate)
    ensures forall u :: u != tokenId ==>
      Lookup(r.tokenProposedLicenseById, u) == Lookup(s.tokenProposedLicenseById, u)
    ensures SameTokens(s, r) && r.tokenLicenseById == s.tokenLicenseById
  {
    s.(tokenProposedLicenseById := s.tokenProposedLicenseById[tokenId := candidate])
  }

  /** `internal_update_license`: the pending proposal is copied into the active slot
      and is left in place; a missing proposal is a panic. */
  function AdoptProposal(s: ContractState, tokenId: TokenId): (r: Result<ContractState>)
    ensures r.Err? <==> tokenId !in s.tokenProposedLicenseById
    ensures r.Err? ==> r.error == NoProposal
    ensures r.Ok? ==> r.value == Replace(s, tokenId, s.tokenProposedLicenseById[tokenId])
    ensures r.Ok? ==> r.value.tokenProposedLicenseById == s.tokenProposedLicenseById
  {
    if tokenId in s.tokenProposedLicenseById then
      Ok(s.(tokenLicenseById := s.tokenLicenseById[tokenId := s.tokenProposedLicenseById[tokenId]]))
    else
      Err(NoProposal)
  }

  /** `nft_accept_license`: the pending proposal becomes the active license and is
      removed; a missing proposal is a panic. Anyone may accept. */
  function Accept(s: ContractState, tokenId: TokenId): (r: Result<ContractState>)
    ensures r.Err? <==> tokenId !in s.tokenProposedLicenseById
    ensures r.Err? ==> r.error == NoProposal
    ensures r.Ok? ==> Lookup(r.value.tokenLicenseById, tokenId) == Lookup(s.tokenProposedLicenseById, tokenId)
    ensures r.Ok? ==> tokenId !in r.value.tokenProposedLicenseById
    ensures r.Ok? ==> forall u :: u != tokenId ==>
      && Lookup(r.value.tokenLicenseById, u) == Lookup(s.tokenLicenseById, u)
      && Lookup(r.value.tokenProposedLicenseById, u) == Lookup(s.tokenProposedLicenseById, u)
    ensures r.Ok? ==> SameTokens(s, r.value)
  {
    if tokenId in s.tokenProposedLicenseById then
      var proposed := s.tokenProposedLicenseById[tokenId];
      Ok(s.(tokenLicenseById := s.tokenLicenseById[tokenId := proposed],
            tokenProposedLicenseById := s.tokenProposedLicenseById - {tokenId}))
    else
      Err(NoProposal)
  }

  /** `nft_approve_license`: the token must exist and `receiverId` must be its owner;
      then the proposal is adopted as by AdoptProposal (and stays pending). */
  function Approve(s: ContractState, tokenId: TokenId, receiverId: AccountId): (r: Result<ContractState>)
    ensures tokenId !in s.tokensById ==> r == Err(NoToken)
    ensures tokenId in s.tokensById && receiverId != s.tokensById[tokenId].ownerId ==> r == Err(NotOwner)
    ensures r.Ok? <==>
      && tokenId in s.tokensById
      && receiverId == s.tokensById[tokenId].ownerId
      && tokenId in s.tokenProposedLicenseById
    ensures tokenId in s.tokensById && receiverId == s.tokensById[tokenId].ownerId ==> r == AdoptProposal(s, tokenId)
  {
    if tokenId !in s.tokensById then Err(NoToken)
    else if receiverId != s.tokensById[tokenId].ownerId then Err(NotOwner)
    else AdoptProposal(s, tokenId)
  }

  // ------------------------------------------------------------ queries

  /** `nft_license`: None for an unminted token; for a minted one its id, owner and
      active license, and a panic when the active license is missing. */
  function LicenseOf(s: ContractState, tokenId: TokenId): (r: Result<Option<JsonTokenLicense>>)
    ensures tokenId !in s.tokensById ==> r == Ok(None)
    ensures tokenId in s.tokensById ==> (r.Err? <==> tokenId !in s.tokenLicenseById)
    ensures r.Err? ==> r.error == NoLicense
    ensures tokenId in s.tokensById && tokenId in s.tokenLicenseById ==>
      r == Ok(Some(JsonTokenLicense(tokenId, s.tokensById[tokenId].ownerId, s.tokenLicenseById[tokenId])))
  {
    if tokenId in s.tokensById then
      if tokenId in s.tokenLicenseById then
        Ok(Some(JsonTokenLicense(tokenId, s.tokensById[tokenId].ownerId, s.tokenLicenseById[tokenId])))
      else
        Err(NoLicense)
    else
      Ok(None)
  }

  /** `nft_proposed_license`: None for an unminted token; for a minted one its id,
      owner and pending proposal. It first unwraps the active license, so a minted
      token without one panics too. */
  function ProposedLicenseOf(s: ContractState, tokenId: TokenId): (r: Result<Option<JsonTokenLicense>>)
    ensures tokenId !in s.tokensById ==> r == Ok(None)
    ensures tokenId in s.tokensById ==>
      (r.Err? <==> tokenId !in s.tokenLicenseById || tokenId !in s.tokenProposedLicenseById)
    ensures r.Err? ==> r.error == (if tokenId !in s.tokenLicenseById then NoLicense else NoProposal)
    ensures tokenId in s.tokensById && tokenId in s.tokenLicenseById && tokenId in s.tokenProposedLicenseById ==>
      r == Ok(Some(JsonTokenLicense(tokenId, s.tokensById[tokenId].ownerId, s.tokenProposedLicenseById[tokenId])))
  {
    if tokenId in s.tokensById then
      if tokenId !in s.tokenLicenseById then Err(NoLicense)
      else if tokenId !in s.tokenProposedLicenseById then Err(NoProposal)
      else Ok(Some(JsonTokenLicense(tokenId, s.tokensById[tokenId].ownerId, s.tokenProposedLicenseById[tokenId])))
    else
      Ok(None)
  }

  // ------------------------------------------------- storage accounting

  /** The refund guard of the license mutators: `refund_deposit` is called only when
      the storage reading grew, and then with exactly the growth. */
  function GrowthRefund(before: nat, after: nat): (r: Option<nat>)
    ensures r.Some? <==> before < after
    ensures r.Some? ==> r.value > 0 && before + r.value == after
  {
    if after > before then Some(after - before) else None
  }

  /** Mint's unguarded `after - before` on u64 readings: the growth, or a panic when
      the reading shrank. */
  function UsageDelta(before: nat, after: nat): (r: Result<nat>)
    ensures r.Ok? <==> before <= after
    ensures r.Ok? ==> before + r.value == after
    ensures r.Err? ==> r.error == StorageUsageUnderflow
  {
    if after < before then Err(StorageUsageUnderflow) else Ok(after - before)
  }
}
