/**
 * The accounts the swap program reads and writes, as decoded values, and
 * the two external programs whose effects it relies on: the token
 * program's one-unit transfer and the associated-token-account program's
 * account creation.
 */
module Ledger {
  import opened Wrappers
  import opened Bytes
  import opened State
  import opened Utils

  /** A token account: the mint it holds, the wallet that owns it, and its balance. */
  datatype TokenAccount = TokenAccount(mint: Pubkey, owner: Pubkey, amount: U64)

  /** An account's data, as far as the program can decode it. */
  datatype AccountData =
    | Empty                            // no data at all
    | LoopData(loop: TradeLoop)
    | ConfigData(config: ProgramConfig)
    | MintData(mint: Mint)
    | TokenData(token: TokenAccount)
    | Unreadable                       // bytes that none of the above decodes

  datatype Account = Account(owner: Pubkey, data: AccountData)

  /** Every account by its address; an absent address has never been created. */
  type Store = map<Pubkey, Account>

  /** An address that holds no account reads as a system-owned account without data. */
  function AccountAt(store: Store, key: Pubkey, ids: ProgramIds): Account
  {
    if key in store then store[key] else Account(ids.system, Empty)
  }

  /** The view of an account that the asset authenticity check inspects. */
  function MintView(account: Account): MintAccount
  {
    MintAccount(account.owner, if account.data.MintData? then Some(account.data.mint) else None)
  }

  /** The balance a token account holds; zero for anything that is not a token account. */
  function Balance(store: Store, key: Pubkey): nat
  {
    if key in store && store[key].data.TokenData? then store[key].data.token.amount else 0
  }

  /** Two stores agree on every address except the ones listed. */
  ghost predicate SameExcept(before: Store, after: Store, changed: set<Pubkey>)
  {
    forall k :: k !in changed ==> (k in before <==> k in after) && (k in before ==> before[k] == after[k])
  }

  /**
   * Apart from the addresses in `except`, every account of `after` that
   * `program` does not own is as it was in `before`.
   */
  ghost predicate OnlyTouches(before: Store, after: Store, program: Pubkey, except: set<Pubkey>)
  {
    forall k :: k in after && k !in except && after[k].owner != program ==> k in before && before[k] == after[k]
  }

  lemma OnlyTouchesTransitive(a: Store, b: Store, c: Store, program: Pubkey, except: set<Pubkey>)
    requires OnlyTouches(a, b, program, except) && OnlyTouches(b, c, program, except)
    ensures OnlyTouches(a, c, program, except)
  {
  }

  /**
   * The token program's transfer of one unit from `source` to `destination`,
   * authorised by `authority`. It fails unless both are initialised token
   * accounts of the same mint, the source holds a unit, and the authority is
   * the source's owner and signed. A transfer to the same account changes
   * nothing.
   */
  function TransferOne(store: Store, ids: ProgramIds, source: Pubkey, destination: Pubkey,
                       authority: Pubkey, signers: set<Pubkey>): (r: Option<Store>)
    ensures r.Some? ==> SameExcept(store, r.value, {source, destination})
    ensures r.Some? ==> Balance(r.value, source) + Balance(r.value, destination)
                        == Balance(store, source) + Balance(store, destination)
    ensures r.Some? && source != destination ==>
              Balance(r.value, source) + 1 == Balance(store, source) &&
              Balance(r.value, destination) == Balance(store, destination) + 1
    ensures r.Some? ==> OnlyTouches(store, r.value, ids.token, {})
  {
    var src := AccountAt(store, source, ids);
    var dst := AccountAt(store, destination, ids);
    if src.owner != ids.token || dst.owner != ids.token then None
    else if !src.data.TokenData? || !dst.data.TokenData? then None
    else if src.data.token.mint != dst.data.token.mint then None
    else if src.data.token.amount < 1 then None
    else if authority != src.data.token.owner || authority !in signers then None
    else if source == destination then Some(store)
    else if dst.data.token.amount + 1 >= U64_LIMIT then None
    else
      var debited := src.(data := TokenData(src.data.token.(amount := src.data.token.amount - 1)));
      var credited := dst.(data := TokenData(dst.data.token.(amount := dst.data.token.amount + 1)));
      Some(store[source := debited][destination := credited])
  }

  /**
   * The associated-token-account program creating the account of `wallet`
   * for `mint`: it succeeds only at the derived address, and the new account
   * is an empty token account owned by the token program.
   */
  function CreateAssociated(store: Store, ids: ProgramIds, key: Pubkey, wallet: Pubkey, mint: Pubkey,
                            associatedAddress: (Pubkey, Pubkey) -> Pubkey): (r: Option<Store>)
    ensures r.Some? <==> key == associatedAddress(wallet, mint)
    ensures r.Some? ==> SameExcept(store, r.value, {key}) && key in r.value
    ensures r.Some? ==> r.value[key] == Account(ids.token, TokenData(TokenAccount(mint, wallet, 0)))
    ensures r.Some? ==> OnlyTouches(store, r.value, ids.token, {})
  {
    if key != associatedAddress(wallet, mint) then None
    else Some(store[key := Account(ids.token, TokenData(TokenAccount(mint, wallet, 0)))])
  }
}
