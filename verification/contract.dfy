/** The NFT contract object. Its keyed tables are fields that every mutating entry
    point updates in place, as the contract's `&mut self` methods do; each method is
    proved to perform the matching transition of LicenseLifecycle and to request the
    refund that the storage meter dictates.

    `env::storage_usage()` is the host's reading of the contract's storage; here it
    is the parameter `storageUsage`, an arbitrary function of the tables. A panic
    aborts the call and the host undoes its writes, so every failing call below
    leaves the object as it found it. */
module NftContract {
  import opened NftTypes
  import opened LicenseLifecycle

  /** Lines 12-23 of `nft_mint`: the royalty map starts empty and, when perpetual
      royalties are supplied (at most MAX_ROYALTIES of them), receives each entry in
      turn. */
  method BuildRoyalty(perpetualRoyalties: Option<map<AccountId, u32>>) returns (r: Result<map<AccountId, u32>>)
    ensures r == RoyaltyOf(perpetualRoyalties)
  {
    var royalty: map<AccountId, u32> := map[];
    if perpetualRoyalties.Some? {
      var royalties := perpetualRoyalties.value;
      if !(|royalties| < 7) {
        return Err(TooManyRoyalties);
      }
      var pending := royalties.Keys;
      while pending != {}
        invariant pending <= royalties.Keys
        invariant royalty.Keys == royalties.Keys - pending
        invariant forall a :: a in royalty ==> royalty[a] == royalties[a]
        decreases pending
      {
        var account :| account in pending;
        royalty := royalty[account := royalties[account]];
        pending := pending - {account};
      }
      assert royalty.Keys == royalties.Keys;
      assert royalty == royalties;
      return Ok(royalty);
    }
    r := Ok(royalty);
  }

  class Contract {
    var tokensPerOwner: map<AccountId, set<TokenId>>
    var tokensById: map<TokenId, Token>
    var tokenMetadataById: map<TokenId, TokenMetadata>
    var tokenLicenseById: map<TokenId, TokenLicense>
    var tokenProposedLicenseById: map<TokenId, TokenLicense>

    /** The tables as one value. */
    function State(): ContractState
      reads this
    {
      ContractState(tokensPerOwner, tokensById, tokenMetadataById, tokenLicenseById, tokenProposedLicenseById)
    }

    /** Puts back the tables of `s`: the host's rollback after a panic. */
    method Restore(s: ContractState)
      modifies this
      ensures State() == s
    {
      tokensPerOwner, tokensById, tokenMetadataById := s.tokensPerOwner, s.tokensById, s.tokenMetadataById;
      tokenLicenseById, tokenProposedLicenseById := s.tokenLicenseById, s.tokenProposedLicenseById;
    }

    // ------------------------------------------------------------ mint.rs

    /** `nft_mint`. On success the result is the storage growth handed to
        `refund_deposit`; a panic (too many royalties, an existing token, a storage
        reading that shrank) leaves the tables as they were. */
    method NftMint(tokenId: TokenId, metadata: TokenMetadata, license: TokenLicense, receiverId: AccountId,
                   perpetualRoyalties: Option<map<AccountId, u32>>, storageUsage: ContractState -> nat)
      returns (r: Result<nat>)
      modifies this
      ensures var minted := Mint(old(State()), tokenId, metadata, license, receiverId, perpetualRoyalties);
        minted.Err? ==> r == Err(minted.error) && State() == old(State())
      ensures var minted := Mint(old(State()), tokenId, metadata, license, receiverId, perpetualRoyalties);
        minted.Ok? ==>
        && r == UsageDelta(storageUsage(old(State())), storageUsage(minted.value))
        && State() == (if r.Ok? then minted.value else old(State()))
    {
      ghost var minted := Mint(State(), tokenId, metadata, license, receiverId, perpetualRoyalties);
      var initialStorageUsage := storageUsage(State());
      var royalty := BuildRoyalty(perpetualRoyalties);
      if royalty.Err? {
        return Err(royalty.error);
      }
      var token := Token(receiverId, map[], 0, royalty.value);
      // The source inserts first and then panics on a previous entry; the host
      // discards that insert, which is the same as not making it.
      if tokenId in tokensById {
        return Err(TokenAlreadyExists);
      }
      var saved := State();
      tokensById := tokensById[tokenId := token];
      tokenMetadataById := tokenMetadataById[tokenId := metadata];
      tokenLicenseById := tokenLicenseById[tokenId := license];
      tokensPerOwner := AddTokenToOwner(tokensPerOwner, token.ownerId, tokenId);
      assert State() == minted.value;
      var storage := storageUsage(State());
      if storage < initialStorageUsage {
        Restore(saved);
        return Err(StorageUsageUnderflow);
      }
      r := Ok(storage - initialStorageUsage);
    }

    /** The `nft_update_license` of mint.rs: overwrites the active license directly.
        `receiverId` only reaches the event log. */
    method NftUpdateLicenseInline(tokenId: TokenId, license: TokenLicense, receiverId: AccountId,
                                  storageUsage: ContractState -> nat)
      returns (refund: Option<nat>)
      modifies this
      ensures State() == Replace(old(State()), tokenId, license)
      ensures refund == GrowthRefund(storageUsage(old(State())), storageUsage(State()))
    {
      var initialStorageUsage := storageUsage(State());
      tokenLicenseById := tokenLicenseById - {tokenId};
      tokenLicenseById := tokenLicenseById[tokenId := license];
      var storage := storageUsage(State());
      refund := None;
      if storage > initialStorageUsage {
        refund := Some(storage - initialStorageUsage);
      }
    }

    /** `nft_accept_license`: moves the proposal into the active slot and removes
        it; without a proposal the `unwrap` panics and nothing changes. */
    method NftAcceptLicense(tokenId: TokenId, receiverId: AccountId, storageUsage: ContractState -> nat)
      returns (r: Result<Option<nat>>)
      modifies this
      ensures Accept(old(State()), tokenId).Err? ==> r == Err(NoProposal) && State() == old(State())
      ensures Accept(old(State()), tokenId).Ok? ==>
        && State() == Accept(old(State()), tokenId).value
        && r == Ok(GrowthRefund(storageUsage(old(State())), storageUsage(State())))
    {
      var initialStorageUsage := storageUsage(State());
      if tokenId !in tokenProposedLicenseById {
        return Err(NoProposal);
      }
      var proposedLicense := tokenProposedLicenseById[tokenId];
      tokenLicenseById := tokenLicenseById - {tokenId};
      tokenLicenseById := tokenLicenseById[tokenId := proposedLicense];
      tokenProposedLicenseById := tokenProposedLicenseById - {tokenId};
      var storage := storageUsage(State());
      var refund := None;
      if storage > initialStorageUsage {
        refund := Some(storage - initialStorageUsage);
      }
      r := Ok(refund);
    }

    /** The `nft_propose_license` of mint.rs: both arms of its test of the caller
        (`predecessor`) against `receiverId` store the candidate, so the outcome does
        not depend on who calls. */
    method NftProposeLicenseInline(tokenId: TokenId, proposedLicense: TokenLicense, receiverId: AccountId,
                                   predecessor: AccountId, storageUsage: ContractState -> nat)
      returns (refund: Option<nat>)
      modifies this
      ensures State() == Propose(old(State()), tokenId, proposedLicense)
      ensures refund == GrowthRefund(storageUsage(old(State())), storageUsage(State()))
    {
      var initialStorageUsage := storageUsage(State());
      var masterId := predecessor;
      if masterId == receiverId {
        tokenProposedLicenseById := tokenProposedLicenseById - {tokenId};
        tokenProposedLicenseById := tokenProposedLicenseById[tokenId := proposedLicense];
      } else {
        tokenProposedLicenseById := tokenProposedLicenseById - {tokenId};
        tokenProposedLicenseById := tokenProposedLicenseById[tokenId := proposedLicense];
      }
      var storage := storageUsage(State());
      refund := None;
      if storage > initialStorageUsage {
        refund := Some(storage - initialStorageUsage);
      }
    }

    // --------------------------------------------------------- license.rs

    /** `nft_update_license` of license.rs: replaces the active license through
        InternalReplaceLicense, with no check of the caller or of the token. */
    method NftUpdateLicense(tokenId: TokenId, license: TokenLicense, receiverId: AccountId,
                            predecessor: AccountId, storageUsage: ContractState -> nat)
      returns (refund: Option<nat>)
      modifies this
      ensures State() == Replace(old(State()), tokenId, license)
      ensures refund == GrowthRefund(storageUsage(old(State())), storageUsage(State()))
    {
      var initialStorageUsage := storageUsage(State());
      var masterId := predecessor;
      InternalReplaceLicense(masterId, tokenId, license);
      var storage := storageUsage(State());
      refund := None;
      if storage > initialStorageUsage {
        refund := Some(storage - initialStorageUsage);
      }
    }

    /** `nft_approve_license`: the token must exist and `receiverId` must own it;
        then InternalUpdateLicense copies the proposal into the active slot and
        leaves the proposal pending. Any panic leaves the tables unchanged. */
    method NftApproveLicense(tokenId: TokenId, receiverId: AccountId, predecessor: AccountId,
                             storageUsage: ContractState -> nat)
      returns (r: Result<Option<nat>>)
      modifies this
      ensures Approve(old(State()), tokenId, receiverId).Err? ==>
        && r == Err(Approve(old(State()), tokenId, receiverId).error)
        && State() == old(State())
      ensures Approve(old(State()), tokenId, receiverId).Ok? ==>
        && State() == Approve(old(State()), tokenId, receiverId).value
        && r == Ok(GrowthRefund(storageUsage(old(State())), storageUsage(State())))
    {
      var initialStorageUsage := storageUsage(State());
      if tokenId !in tokensById {
        return Err(NoToken);
      }
      var token := tokensById[tokenId];
      if receiverId != token.ownerId {
        return Err(NotOwner);
      }
      var masterId := predecessor;
      var updated := InternalUpdateLicense(masterId, tokenId);
      if updated.Err? {
        return Err(updated.error);
      }
      var storage := storageUsage(State());
      var refund := None;
      if storage > initialStorageUsage {
        refund := Some(storage - initialStorageUsage);
      }
      r := Ok(refund);
    }

    /** `nft_propose_license` of license.rs: stores the candidate through
        InternalProposeLicense, with no check of the caller or of the token. */
    method NftProposeLicense(tokenId: TokenId, proposedLicense: TokenLicense, receiverId: AccountId,
                             predecessor: AccountId, storageUsage: ContractState -> nat)
      returns (refund: Option<nat>)
      modifies this
      ensures State() == Propose(old(State()), tokenId, proposedLicense)
      ensures refund == GrowthRefund(storageUsage(old(State())), storageUsage(State()))
    {
      var initialStorageUsage := storageUsage(State());
      var masterId := predecessor;
      InternalProposeLicense(masterId, tokenId, proposedLicense);
      var storage := storageUsage(State());
      refund := None;
      if storage > initialStorageUsage {
        refund := Some(storage - initialStorageUsage);
      }
    }

    /** `internal_propose_license`: the candidate replaces any pending proposal.
        `accountId` is not consulted. */
    method InternalProposeLicense(accountId: AccountId, tokenId: TokenId, proposedLicense: TokenLicense)
      modifies this
      ensures State() == Propose(old(State()), tokenId, proposedLicense)
    {
      tokenProposedLicenseById := tokenProposedLicenseById - {tokenId};
      tokenProposedLicenseById := tokenProposedLicenseById[tokenId := proposedLicense];
    }

    /** `internal_update_license`: the pending proposal becomes the active license
        and stays pending; without one the `unwrap` panics. `accountId` is not
        consulted. */
    method InternalUpdateLicense(accountId: AccountId, tokenId: TokenId) returns (r: Result<()>)
      modifies this
      ensures AdoptProposal(old(State()), tokenId).Err? ==> r == Err(NoProposal) && State() == old(State())
      ensures AdoptProposal(old(State()), tokenId).Ok? ==>
        r == Ok(()) && State() == AdoptProposal(old(State()), tokenId).value
    {
      if tokenId !in tokenProposedLicenseById {
        return Err(NoProposal);
      }
      var proposedLicense := tokenProposedLicenseById[tokenId];
      tokenLicenseById := tokenLicenseById - {tokenId};
      tokenLicenseById := tokenLicenseById[tokenId := proposedLicense];
      r := Ok(());
    }

    /** `internal_replace_license`: the active license becomes `license`.
        `accountId` is not consulted. */
    method InternalReplaceLicense(accountId: AccountId, tokenId: TokenId, license: TokenLicense)
      modifies this
      ensures State() == Replace(old(State()), tokenId, license)
    {
      tokenLicenseById := tokenLicenseById - {tokenId};
      tokenLicenseById := tokenLicenseById[tokenId := license];
    }
  }
}
