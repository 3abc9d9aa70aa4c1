/** Values of the NFT contract: account and token identifiers, the token record,
    the opaque metadata and license blobs, and the panics the contract can raise. */
module NftTypes {

  /** The contract's fixed-width integers. */
  newtype u32 = x: int | 0 <= x < 0x1_0000_0000
  newtype u64 = x: int | 0 <= x < 0x1_0000_0000_0000_0000

  type AccountId = string
  type TokenId = string

  /** Token metadata, stored and returned but never inspected by the license logic. */
  datatype TokenMetadata = TokenMetadata(json: string)

  /** A license: caller-supplied usage terms that the contract stores, copies and
      overwrites, but never looks inside. */
  datatype TokenLicense = TokenLicense(json: string)

  /** The record kept in `tokens_by_id`. */
  datatype Token = Token(
    ownerId: AccountId,
    approvedAccountIds: map<AccountId, u64>,
    nextApprovalId: u64,
    royalty: map<AccountId, u32>)

  /** What the two license queries return for a minted token. */
  datatype JsonTokenLicense = JsonTokenLicense(tokenId: TokenId, ownerId: AccountId, license: TokenLicense)

  datatype Option<T> = None | Some(value: T)

  /** Every way a call can panic. A NEAR panic aborts the call and the host rolls
      back every write the call made. */
  datatype Error =
    | TooManyRoyalties       // "Cannot add more than 6 perpetual royalty amounts"
    | TokenAlreadyExists     // "Token already exists"
    | NoToken                // "No token"
    | NotOwner               // "Only the owner can approve a license"
    | NoProposal             // `unwrap` of a missing proposed license
    | NoLicense              // `unwrap` of a missing active license
    | StorageUsageUnderflow  // u64 subtraction `after - before` with after < before

  datatype Result<T> = Ok(value: T) | Err(error: Error)

  /** The value stored under `k`, if any. */
  function Lookup<K, V>(m: map<K, V>, k: K): Option<V>
  {
    if k in m then Some(m[k]) else None
  }
}
