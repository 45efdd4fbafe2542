/**
 * The configuration handlers: who may change the configuration, what an
 * update can change, and how an upgrade moves the version.
 */
module ConfigProperties {
  import opened Wrappers
  import opened Bytes
  import opened Errors
  import opened State
  import opened Utils
  import opened Ledger
  import opened Processor

  /** The configuration a program-owned account holds, if any. */
  ghost function ConfigAt(env: Env, store: Store, key: Pubkey): Option<ProgramConfig>
  {
    var account := AccountAt(store, key, env.ids);
    if account.owner == env.programId && account.data.ConfigData? then Some(account.data.config) else None
  }

  /**
   * Initializing the configuration succeeds exactly when the signer passes
   * the system program, the empty configuration address and the Rent
   * sysvar account; the signer
   * becomes the upgrade authority, at version 1, not paused.
   */
  lemma InitializeConfigOutcome(env: Env, store: Store, ctx: Context, governance: Option<Pubkey>)
    ensures var e := InitializeProgramConfigEffect(env, store, ctx, governance);
            e.Ok? <==> (|ctx.keys| >= 4 && ctx.keys[0] in ctx.signers && ctx.keys[3] == env.ids.system &&
                        ctx.keys[1] == env.configKey && AccountAt(store, env.configKey, env.ids).data.Empty? &&
                        ctx.keys[2] == env.ids.rent)
    ensures var e := InitializeProgramConfigEffect(env, store, ctx, governance);
            e.Ok? ==>
              && SameExcept(store, e.value, {env.configKey})
              && ConfigAt(env, e.value, env.configKey) == Some(ProgramConfig(true, PROGRAM_VERSION, ctx.keys[0], governance, false))
  {
  }

  /** The checks an update or an upgrade makes before the authorization check all pass. */
  ghost predicate AdminCallReady(env: Env, store: Store, ctx: Context, configPosition: nat)
  {
    && |ctx.keys| > configPosition
    && ctx.keys[0] in ctx.signers
    && ctx.keys[configPosition] == env.configKey
    && ConfigAt(env, store, env.configKey).Some?
    && ConfigAt(env, store, env.configKey).value.initialized
  }

  /**
   * An update succeeds exactly when the signer is the upgrade authority or
   * the governance key; it replaces only the fields that were supplied, so
   * the version is kept and a governance key, once set, is never cleared.
   */
  lemma UpdateConfigOutcome(env: Env, store: Store, ctx: Context, newUpgradeAuthority: Option<Pubkey>,
                            newGovernance: Option<Pubkey>, newPausedState: Option<bool>)
    ensures var e := UpdateProgramConfigEffect(env, store, ctx, newUpgradeAuthority, newGovernance, newPausedState);
            e.Ok? <==> (AdminCallReady(env, store, ctx, 1) &&
                        MayAdminister(ConfigAt(env, store, env.configKey).value, ctx.keys[0]))
    ensures var e := UpdateProgramConfigEffect(env, store, ctx, newUpgradeAuthority, newGovernance, newPausedState);
            AdminCallReady(env, store, ctx, 1) && !MayAdminister(ConfigAt(env, store, env.configKey).value, ctx.keys[0]) ==>
              e == Err(Failed(UpgradeAuthorityMismatch))
    ensures var e := UpdateProgramConfigEffect(env, store, ctx, newUpgradeAuthority, newGovernance, newPausedState);
            e.Ok? ==>
              && SameExcept(store, e.value, {env.configKey})
              && ConfigAt(env, e.value, env.configKey).Some?
              && var before := ConfigAt(env, store, env.configKey).value;
              && var after := ConfigAt(env, e.value, env.configKey).value;
              && after.initialized && after.version == before.version
              && after.upgradeAuthority == (if newUpgradeAuthority.Some? then newUpgradeAuthority.value else before.upgradeAuthority)
              && after.governance == (if newGovernance.Some? then newGovernance else before.governance)
              && after.paused == (if newPausedState.Some? then newPausedState.value else before.paused)
              && (before.governance.Some? ==> after.governance.Some?)
  {
  }

  /**
   * An upgrade needs the upgrade authority or the governance key, then a
   * strictly greater version; when it succeeds only the stored version
   * changes.
   */
  lemma UpgradeOutcome(env: Env, store: Store, ctx: Context, newVersion: U32)
    ensures var e := UpgradeProgramEffect(env, store, ctx, newVersion);
            |ctx.keys| >= 8 && AdminCallReady(env, store, ctx, 7) ==>
              var before := ConfigAt(env, store, env.configKey).value;
              && (!MayAdminister(before, ctx.keys[0]) ==> e == Err(Failed(UpgradeAuthorityMismatch)))
              && (MayAdminister(before, ctx.keys[0]) && newVersion <= before.version ==>
                    e == Err(Failed(InvalidProgramVersion)))
    ensures var e := UpgradeProgramEffect(env, store, ctx, newVersion);
            e.Ok? ==>
              && |ctx.keys| >= 8 && AdminCallReady(env, store, ctx, 7)
              && var before := ConfigAt(env, store, env.configKey).value;
              && MayAdminister(before, ctx.keys[0])
              && before.version < newVersion
              && ctx.keys[6] == env.ids.bpfLoaderUpgradeable && ctx.loaderAccepts
              && SameExcept(store, e.value, {env.configKey})
              && ConfigAt(env, e.value, env.configKey) == Some(before.(version := newVersion))
  {
  }
}
