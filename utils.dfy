/**
 * Account validators: ownership checks, the non-fungible asset
 * authenticity check with its three strictness levels, and the
 * associated-token-address check.
 */
module Utils {
  import opened Wrappers
  import opened Bytes
  import opened Errors

  /** Identifiers of the external programs the checks compare against. */
  datatype ProgramIds = ProgramIds(
    token: Pubkey,
    associatedToken: Pubkey,
    system: Pubkey,
    sysvar: Pubkey,
    bpfLoaderUpgradeable: Pubkey,
    clock: Pubkey,     // the Clock sysvar account
    rent: Pubkey)      // the Rent sysvar account

  /** A decoded token mint. */
  datatype Mint = Mint(
    mintAuthority: Option<Pubkey>,
    supply: U64,
    decimals: Byte,
    isInitialized: bool,
    freezeAuthority: Option<Pubkey>)

  /** A mint account as the program sees it: its owner and, if its data decodes, the mint. */
  datatype MintAccount = MintAccount(owner: Pubkey, mint: Option<Mint>)

  /** The optional metadata account; only its data length is inspected. */
  datatype MetadataAccount = MetadataAccount(dataLen: nat)

  datatype VerificationMode = Basic | Standard | Strict

  /** `verify_account_owner`: the account must belong to the expected program. */
  function VerifyAccountOwner(owner: Pubkey, programId: Pubkey): (r: Check)
    ensures r == Pass <==> owner == programId
    ensures r != Pass ==> r == Fail(InvalidAccountOwner)
  {
    if owner != programId then Fail(InvalidAccountOwner) else Pass
  }

  /** `verify_token_account_owner`. */
  function VerifyTokenAccountOwner(owner: Pubkey, ids: ProgramIds): (r: Check)
    ensures r == Pass <==> owner == ids.token
    ensures r != Pass ==> r == Fail(InvalidAccountOwner)
  {
    VerifyAccountOwner(owner, ids.token)
  }

  /** `verify_system_account_owner`. */
  function VerifySystemAccountOwner(owner: Pubkey, ids: ProgramIds): (r: Check)
    ensures r == Pass <==> owner == ids.system
    ensures r != Pass ==> r == Fail(InvalidAccountOwner)
  {
    VerifyAccountOwner(owner, ids.system)
  }

  /** `verify_sysvar_account_owner`. */
  function VerifySysvarAccountOwner(owner: Pubkey, ids: ProgramIds): (r: Check)
    ensures r == Pass <==> owner == ids.sysvar
    ensures r != Pass ==> r == Fail(InvalidAccountOwner)
  {
    VerifyAccountOwner(owner, ids.sysvar)
  }

  /** Phase 1: owned by the token program, decodable, zero decimals, initialized. */
  function VerifyBasicMintProperties(account: MintAccount, ids: ProgramIds): (r: Result<Mint, SwapError>)
    ensures r.Ok? <==> (account.owner == ids.token && account.mint.Some?
                        && account.mint.value.decimals == 0 && account.mint.value.isInitialized)
    ensures r.Ok? ==> Some(r.value) == account.mint
    ensures r.Err? ==> r.error == InvalidMetadataAccount
  {
    if account.owner != ids.token then Err(InvalidMetadataAccount)
    else if account.mint.None? then Err(InvalidMetadataAccount)
    else if account.mint.value.decimals != 0 then Err(InvalidMetadataAccount)
    else if !account.mint.value.isInitialized then Err(InvalidMetadataAccount)
    else Ok(account.mint.value)
  }

  /** Phase 2: exactly one unit has been minted. */
  function VerifyNftSupplyConstraints(mint: Mint): (r: Check)
    ensures r == Pass <==> mint.supply == 1
    ensures r != Pass ==> r == Fail(InvalidMetadataAccount)
  {
    if mint.supply != 1 then Fail(InvalidMetadataAccount) else Pass
  }

  /** Phase 2: mint and freeze authorities are inspected and logged, never rejected. */
  function VerifyMintAuthoritySafety(mint: Mint): (r: Check)
    ensures r == Pass
  {
    Pass
  }

  /** Phase 3: a metadata account that is non-empty and at least 32 bytes long. */
  function VerifyMetaplexMetadata(metadata: MetadataAccount): (r: Check)
    ensures r == Pass <==> metadata.dataLen >= 32
    ensures r != Pass ==> r == Fail(InvalidMetadataAccount)
  {
    if metadata.dataLen == 0 then Fail(InvalidMetadataAccount)
    else if metadata.dataLen < 32 then Fail(InvalidMetadataAccount)
    else Pass
  }

  /** What an accepted asset satisfies, stated without the phase structure. */
  ghost predicate IsGenuine(account: MintAccount, metadata: Option<MetadataAccount>, mode: VerificationMode, ids: ProgramIds)
  {
    && account.owner == ids.token
    && account.mint.Some?
    && account.mint.value.decimals == 0
    && account.mint.value.isInitialized
    && (mode != Basic ==> account.mint.value.supply == 1)
    && (mode == Strict ==> metadata.Some? && metadata.value.dataLen >= 32)
  }

  /** `verify_nft_metadata_with_mode`: the three phases in order, each phase only in the modes that need it. */
  function VerifyNftMetadataWithMode(account: MintAccount, metadata: Option<MetadataAccount>,
                                     mode: VerificationMode, ids: ProgramIds): (r: Check)
    ensures r == Pass <==> IsGenuine(account, metadata, mode, ids)
    ensures r != Pass ==> r == Fail(InvalidMetadataAccount)
  {
    match VerifyBasicMintProperties(account, ids)
    case Err(e) => Fail(e)
    case Ok(mint) =>
      var standard :=
        if mode != Basic then
          (match VerifyNftSupplyConstraints(mint)
           case Fail(e) => Fail(e)
           case Pass => VerifyMintAuthoritySafety(mint))
        else Pass;
      if standard != Pass then standard
      else if mode == Strict then
        (match metadata
         case Some(m) => VerifyMetaplexMetadata(m)
         case None => Fail(InvalidMetadataAccount))
      else Pass
  }

  /** `verify_nft_metadata`: the default check, Standard mode without a metadata account. */
  function VerifyNftMetadata(account: MintAccount, ids: ProgramIds): (r: Check)
    ensures r == Pass <==> (account.owner == ids.token && account.mint.Some?
                            && account.mint.value.decimals == 0 && account.mint.value.isInitialized
                            && account.mint.value.supply == 1)
    ensures r != Pass ==> r == Fail(InvalidMetadataAccount)
  {
    VerifyNftMetadataWithMode(account, None, Standard, ids)
  }

  /** An asset accepted in a stricter mode is accepted in every weaker mode. */
  lemma ModeMonotone(account: MintAccount, metadata: Option<MetadataAccount>, ids: ProgramIds)
    ensures VerifyNftMetadataWithMode(account, metadata, Strict, ids) == Pass ==>
            VerifyNftMetadataWithMode(account, metadata, Standard, ids) == Pass
    ensures VerifyNftMetadataWithMode(account, metadata, Standard, ids) == Pass ==>
            VerifyNftMetadataWithMode(account, metadata, Basic, ids) == Pass
  {
  }

  /** Strict mode without a metadata account always rejects. */
  lemma StrictNeedsMetadata(account: MintAccount, ids: ProgramIds)
    ensures VerifyNftMetadataWithMode(account, None, Strict, ids) == Fail(InvalidMetadataAccount)
  {
  }

  /** Neither the mint authority nor the freeze authority affects the verdict. */
  lemma AuthoritiesAreIrrelevant(account: MintAccount, metadata: Option<MetadataAccount>,
                                 mode: VerificationMode, ids: ProgramIds,
                                 mintAuthority: Option<Pubkey>, freezeAuthority: Option<Pubkey>)
    requires account.mint.Some?
    ensures var other := account.(mint := Some(account.mint.value.(mintAuthority := mintAuthority,
                                                                   freezeAuthority := freezeAuthority)));
            VerifyNftMetadataWithMode(other, metadata, mode, ids) == VerifyNftMetadataWithMode(account, metadata, mode, ids)
  {
  }

  /**
   * `verify_token_account_address`: the supplied key must be the associated
   * token address of (wallet, mint); the derivation is a parameter.
   */
  function VerifyTokenAccountAddress(key: Pubkey, wallet: Pubkey, mint: Pubkey,
                                     associatedAddress: (Pubkey, Pubkey) -> Pubkey): (r: Check)
    ensures r == Pass <==> key == associatedAddress(wallet, mint)
    ensures r != Pass ==> r == Fail(InvalidAccountData)
  {
    if key != associatedAddress(wallet, mint) then Fail(InvalidAccountData) else Pass
  }
}
