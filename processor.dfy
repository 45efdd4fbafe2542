/**
 * The swap program's instruction handlers. Each handler is specified by an
 * effect function (the new account store, or the failure it returns) that
 * follows the handler's guards in order; the class `SwapProgram` holds the
 * account store and implements each handler step by step, proved equal to
 * its effect. A failing handler leaves every account as it was, because the
 * runtime discards the changes of an instruction that returns an error.
 */
module Processor {
  import opened Wrappers
  import opened Bytes
  import opened Errors
  import opened State
  import opened Utils
  import opened Instruction
  import opened Ledger

  /**
   * The deployment: the program's own id, the configuration address derived
   * from it, the external program ids, and the associated-token-address
   * derivation (a hash-based function, left abstract).
   */
  datatype Env = Env(
    programId: Pubkey,
    configKey: Pubkey,
    ids: ProgramIds,
    associatedAddress: (Pubkey, Pubkey) -> Pubkey)

  /**
   * One invocation: the account keys in the order the instruction lists
   * them, the keys that signed, the clock (as the unsigned value the program
   * reads), and whether the loader accepts an upgrade it is asked to perform.
   */
  datatype Context = Context(keys: seq<Pubkey>, signers: set<Pubkey>, now: U64, loaderAccepts: bool)

  /** Failures that come from the runtime or from another program, not from `SwapError`. */
  datatype HostFault =
    | NotEnoughAccountKeys
    | MissingRequiredSignature
    | BorshIoError
    | InvalidTokenAccount
    | InvokeFailed
    | Panicked
    | InvalidArgument   // a sysvar read from an account that is not that sysvar

  datatype Failure = Failed(error: SwapError) | Host(fault: HostFault)

  /** What an instruction does: the new account store, or the failure it reports. */
  type Effect = Result<Store, Failure>

  type ProgramResult = Result<(), Failure>

  function Verdict(e: Effect): ProgramResult
  {
    if e.Ok? then Ok(()) else Err(e.error)
  }

  /** The store after the runtime has applied (on success) or discarded (on failure) an effect. */
  function Commit(store: Store, e: Effect): Store
  {
    if e.Ok? then e.value else store
  }

  function Require(c: Check): Result<(), Failure>
  {
    if c.Fail? then Err(Failed(c.error)) else Ok(())
  }

  // ---------------------------------------------------------------------
  // The pause gate
  // ---------------------------------------------------------------------

  /** The configuration account is passed but does not count: wrong owner, or no data. */
  ghost predicate ConfigSkipped(env: Env, store: Store)
  {
    var account := AccountAt(store, env.configKey, env.ids);
    account.owner != env.programId || account.data.Empty?
  }

  /**
   * `check_program_not_paused`: when the configuration account is among the
   * instruction's accounts, owned by the program and not empty, it must
   * decode and must not be paused. Without it the gate lets everything pass.
   */
  function PauseGate(env: Env, store: Store, keys: seq<Pubkey>): Check
  {
    var account := AccountAt(store, env.configKey, env.ids);
    if env.configKey !in keys then Pass
    else if account.owner != env.programId || account.data.Empty? then Pass
    else if !account.data.ConfigData? then Fail(InvalidAccountData)
    else if account.data.config.paused then Fail(InvalidInstructionData)
    else Pass
  }

  // ---------------------------------------------------------------------
  // Shared checks
  // ---------------------------------------------------------------------

  /** Each listed position holds the expected program id. */
  function ProgramsMatch(keys: seq<Pubkey>, expected: seq<(nat, Pubkey)>): bool
  {
    forall p :: p in expected ==> p.0 < |keys| && keys[p.0] == p.1
  }

  /**
   * The checks every trade-loop handler makes before it uses the record:
   * enough accounts, the first one signed, program ids (some before and some
   * after the ownership check), the loop account (the second) owned by the
   * program, its data decodes, and the record is initialized.
   */
  function LoadLoop(env: Env, store: Store, ctx: Context, accountCount: nat,
                    idsBeforeOwner: seq<(nat, Pubkey)>, idsAfterOwner: seq<(nat, Pubkey)>): (r: Result<TradeLoop, Failure>)
    requires accountCount >= 2
    ensures r.Ok? ==> |ctx.keys| >= accountCount && ctx.keys[0] in ctx.signers
    ensures r.Ok? ==> AccountAt(store, ctx.keys[1], env.ids) == Account(env.programId, LoopData(r.value))
    ensures r.Ok? ==> r.value.initialized
  {
    if |ctx.keys| < accountCount then Err(Host(NotEnoughAccountKeys))
    else if ctx.keys[0] !in ctx.signers then Err(Host(MissingRequiredSignature))
    else if !ProgramsMatch(ctx.keys, idsBeforeOwner) then Err(Failed(IncorrectProgramId))
    else
      var account := AccountAt(store, ctx.keys[1], env.ids);
      if VerifyAccountOwner(account.owner, env.programId).Fail? then Err(Failed(InvalidAccountOwner))
      else if !ProgramsMatch(ctx.keys, idsAfterOwner) then Err(Failed(IncorrectProgramId))
      else if !account.data.LoopData? then Err(Host(BorshIoError))
      else if !account.data.loop.initialized then Err(Failed(UninitializedAccount))
      else Ok(account.data.loop)
  }

  /** The store with the loop account (the instruction's second account) holding `record`. */
  function WriteLoop(env: Env, store: Store, ctx: Context, record: TradeLoop): Store
    requires |ctx.keys| >= 2
  {
    store[ctx.keys[1] := Account(env.programId, LoopData(record))]
  }

  /** The source token account decodes, belongs to `owner`, holds `mint`, and has at least one unit. */
  function HoldsUnit(source: Account, owner: Pubkey, mint: Pubkey): Result<(), Failure>
  {
    if !source.data.TokenData? then Err(Host(InvalidTokenAccount))
    else if source.data.token.owner != owner then Err(Failed(InvalidAccountOwner))
    else if source.data.token.mint != mint then Err(Failed(InvalidAccountData))
    else if source.data.token.amount < 1 then Err(Failed(InsufficientFunds))
    else Ok(())
  }

  // ---------------------------------------------------------------------
  // Asset checks and transfers
  // ---------------------------------------------------------------------

  /**
   * Adding a step, for one asset: the mint account and the sender's token
   * account at `pos` and `pos + 1`. The mint must be the listed one and pass
   * the authenticity check; the token account must belong to the token
   * program, sit at the sender's associated address, and hold a unit.
   */
  function CheckOwnedAsset(env: Env, store: Store, ctx: Context, pos: nat, owner: Pubkey, mint: Pubkey): Result<(), Failure>
  {
    if |ctx.keys| < pos + 2 then Err(Host(NotEnoughAccountKeys))
    else
      var mintKey, sourceKey := ctx.keys[pos], ctx.keys[pos + 1];
      var source := AccountAt(store, sourceKey, env.ids);
      if mintKey != mint then Err(Failed(InvalidAccountData))
      else
        var _ :- Require(VerifyNftMetadata(MintView(AccountAt(store, mintKey, env.ids)), env.ids));
        var _ :- Require(VerifyTokenAccountOwner(source.owner, env.ids));
        var _ :- Require(VerifyTokenAccountAddress(sourceKey, owner, mintKey, env.associatedAddress));
        HoldsUnit(source, owner, mintKey)
  }

  /** `CheckOwnedAsset` for each asset in turn, two accounts per asset. */
  function CheckOwnedAssets(env: Env, store: Store, ctx: Context, pos: nat, owner: Pubkey, mints: seq<Pubkey>): Result<(), Failure>
    decreases |mints|
  {
    if |mints| == 0 then Ok(())
    else
      var _ :- CheckOwnedAsset(env, store, ctx, pos, owner, mints[0]);
      CheckOwnedAssets(env, store, ctx, pos + 2, owner, mints[1..])
  }

  /**
   * Executing a step, for one asset: the mint, source and destination
   * accounts at `pos`, `pos + 1`, `pos + 2`. The destination is checked only
   * if it exists and is created otherwise; then the source is checked and
   * one unit moves from source to destination.
   */
  function MoveAsset(env: Env, store: Store, ctx: Context, pos: nat, sender: Pubkey, recipient: Pubkey, mint: Pubkey): Effect
  {
    if |ctx.keys| < pos + 3 then Err(Host(NotEnoughAccountKeys))
    else
      var mintKey, sourceKey, destinationKey := ctx.keys[pos], ctx.keys[pos + 1], ctx.keys[pos + 2];
      var source := AccountAt(store, sourceKey, env.ids);
      var destination := AccountAt(store, destinationKey, env.ids);
      if mintKey != mint then Err(Failed(InvalidAccountData))
      else
        var _ :- Require(VerifyNftMetadata(MintView(AccountAt(store, mintKey, env.ids)), env.ids));
        var _ :- Require(VerifyTokenAccountOwner(source.owner, env.ids));
        var _ :- Require(VerifyTokenAccountAddress(sourceKey, sender, mintKey, env.associatedAddress));
        var _ :- if destination.data.Empty? then Ok(())
                 else Require(VerifyTokenAccountAddress(destinationKey, recipient, mintKey, env.associatedAddress));
        var created :- if !destination.data.Empty? then Ok(store)
                       else match CreateAssociated(store, env.ids, destinationKey, recipient, mintKey, env.associatedAddress)
                            case None => Err(Host(InvokeFailed))
                            case Some(s) => Ok(s);
        var _ :- HoldsUnit(AccountAt(created, sourceKey, env.ids), sender, mintKey);
        match TransferOne(created, env.ids, sourceKey, destinationKey, sender, ctx.signers)
        case None => Err(Host(InvokeFailed))
        case Some(s) => Ok(s)
  }

  /** `MoveAsset` for each asset of a step in turn; on success, the store and the next unread position. */
  function MoveAssets(env: Env, store: Store, ctx: Context, pos: nat, sender: Pubkey, recipient: Pubkey,
                      mints: seq<Pubkey>): (r: Result<(Store, nat), Failure>)
    ensures r.Ok? ==> r.value.1 == pos + 3 * |mints|
    decreases |mints|
  {
    if |mints| == 0 then Ok((store, pos))
    else
      var moved :- MoveAsset(env, store, ctx, pos, sender, recipient, mints[0]);
      MoveAssets(env, moved, ctx, pos + 3, sender, recipient, mints[1..])
  }

  /**
   * The body of the full execution: per step, the step must not be executed
   * yet, the next two accounts must be its sender and recipient, and its
   * assets then move.
   */
  function SettleSteps(env: Env, store: Store, ctx: Context, pos: nat, steps: seq<TradeStep>): Result<(Store, nat), Failure>
    decreases |steps|
  {
    if |steps| == 0 then Ok((store, pos))
    else
      var step := steps[0];
      if step.status == Executed then Err(Failed(StepAlreadyExecuted))
      else if |ctx.keys| < pos + 2 then Err(Host(NotEnoughAccountKeys))
      else if step.from != ctx.keys[pos] then Err(Failed(InvalidAccountData))
      else if step.to != ctx.keys[pos + 1] then Err(Failed(InvalidAccountData))
      else
        var moved :- MoveAssets(env, store, ctx, pos + 2, ctx.keys[pos], ctx.keys[pos + 1], step.nftMints);
        SettleSteps(env, moved.0, ctx, moved.1, steps[1..])
  }

  /** Every step marked executed, nothing else changed. */
  function AllExecuted(steps: seq<TradeStep>): (r: seq<TradeStep>)
    ensures |r| == |steps|
    ensures forall i :: 0 <= i < |steps| ==> r[i] == steps[i].(status := Executed)
  {
    if |steps| == 0 then [] else [steps[0].(status := Executed)] + AllExecuted(steps[1..])
  }

  // ---------------------------------------------------------------------
  // Handlers, as effects
  // ---------------------------------------------------------------------

  /** `process_initialize_trade_loop`. */
  function InitializeTradeLoopEffect(env: Env, store: Store, ctx: Context,
                                     tradeId: Bytes32, stepCount: Byte, timeoutSeconds: U64): Effect
  {
    var _ :- Require(PauseGate(env, store, ctx.keys));
    if stepCount == 0 then Err(Failed(InvalidInstructionData))
    else if stepCount > MAX_PARTICIPANTS_PER_TRANSACTION then Err(Failed(TooManyParticipants))
    else if timeoutSeconds > MAX_TIMEOUT_SECONDS then Err(Failed(InvalidInstructionData))
    else if |ctx.keys| < 4 then Err(Host(NotEnoughAccountKeys))
    else if !AccountAt(store, ctx.keys[1], env.ids).data.Empty? then Err(Failed(InvalidAccountData))
    else if ctx.keys[0] !in ctx.signers then Err(Host(MissingRequiredSignature))
    else if ctx.keys[2] != env.ids.rent then Err(Host(InvalidArgument))
    else if ctx.now as int + timeoutSeconds as int >= U64_LIMIT then Err(Failed(InvalidInstructionData))
    else
      var record := TradeLoop(true, tradeId, ctx.now, ctx.now + timeoutSeconds, [], stepCount, ctx.keys[0]);
      Ok(WriteLoop(env, store, ctx, record))
  }

  /** Where a new step goes: appended when the index is at or past the end, otherwise in place. */
  function PlaceStep(steps: seq<TradeStep>, index: nat, step: TradeStep): seq<TradeStep>
  {
    if index >= |steps| then steps + [step] else steps[index := step]
  }

  /** Some asset is listed twice. */
  ghost predicate HasRepeatedMint(mints: seq<Pubkey>)
  {
    exists i, j :: 0 <= i < j < |mints| && mints[i] == mints[j]
  }

  /** `process_add_trade_step`. */
  ghost function AddTradeStepEffect(env: Env, store: Store, ctx: Context,
                                    stepIndex: Byte, to: Pubkey, nftMints: seq<Pubkey>): Effect
  {
    var _ :- Require(PauseGate(env, store, ctx.keys));
    var record :- LoadLoop(env, store, ctx, 3, [(2, env.ids.token)], []);
    if stepIndex >= record.capacity then Err(Failed(InvalidInstructionData))
    else if |nftMints| == 0 then Err(Failed(InvalidInstructionData))
    else if HasRepeatedMint(nftMints) then Err(Failed(InvalidInstructionData))
    else
      var _ :- CheckOwnedAssets(env, store, ctx, 3, ctx.keys[0], nftMints);
      var steps := PlaceStep(record.steps, stepIndex, TradeStep(ctx.keys[0], to, nftMints, Created));
      if |steps| == record.capacity && !IsValidCycle(steps) then Err(Failed(TradeLoopVerificationFailed))
      else Ok(WriteLoop(env, store, ctx, record.(steps := steps)))
  }

  /** `process_approve_trade_step`. */
  function ApproveTradeStepEffect(env: Env, store: Store, ctx: Context, stepIndex: Byte): Effect
  {
    var _ :- Require(PauseGate(env, store, ctx.keys));
    var record :- LoadLoop(env, store, ctx, 3, [], []);
    if ctx.keys[2] != env.ids.clock then Err(Host(InvalidArgument))
    else if IsExpired(record, ctx.now) then Err(Failed(TradeTimeoutExceeded))
    else if stepIndex >= |record.steps| then Err(Failed(InvalidInstructionData))
    else
      var step := record.steps[stepIndex];
      if step.from != ctx.keys[0] then Err(Failed(InvalidAccountOwner))
      else if step.status == Approved then Ok(store)
      else if step.status == Executed then Err(Failed(StepAlreadyExecuted))
      else
        var steps := record.steps[stepIndex := step.(status := Approved)];
        Ok(WriteLoop(env, store, ctx, record.(steps := steps)))
  }

  /** The program ids the execution handlers check, as (position, expected id). */
  function ExecuteStepProgramIds(env: Env): seq<(nat, Pubkey)>
  {
    [(4, env.ids.token), (5, env.ids.associatedToken), (6, env.ids.system)]
  }

  function ExecuteLoopProgramIds(env: Env): seq<(nat, Pubkey)>
  {
    [(2, env.ids.token), (3, env.ids.associatedToken), (4, env.ids.system)]
  }

  /** `process_execute_trade_step`. */
  function ExecuteTradeStepEffect(env: Env, store: Store, ctx: Context, stepIndex: Byte): Effect
  {
    var _ :- Require(PauseGate(env, store, ctx.keys));
    var record :- LoadLoop(env, store, ctx, 8, [], ExecuteStepProgramIds(env));
    if IsExpired(record, ctx.now) then Err(Failed(TradeTimeoutExceeded))
    else if stepIndex >= |record.steps| then Err(Failed(InvalidInstructionData))
    else
      var step := record.steps[stepIndex];
      if step.status != Approved then Err(Failed(MissingApprovals))
      else if step.status == Executed then Err(Failed(StepAlreadyExecuted))
      else if step.from != ctx.keys[2] then Err(Failed(InvalidAccountData))
      else if step.to != ctx.keys[3] then Err(Failed(InvalidAccountData))
      else if ctx.keys[7] != env.ids.rent then Err(Host(InvalidArgument))
      else
        var moved :- MoveAssets(env, store, ctx, 8, ctx.keys[2], ctx.keys[3], step.nftMints);
        var steps := record.steps[stepIndex := step.(status := Executed)];
        Ok(WriteLoop(env, moved.0, ctx, record.(steps := steps)))
  }

  /** `process_execute_full_trade_loop`. */
  ghost function ExecuteFullTradeLoopEffect(env: Env, store: Store, ctx: Context): Effect
  {
    var _ :- Require(PauseGate(env, store, ctx.keys));
    var record :- LoadLoop(env, store, ctx, 7, [], ExecuteLoopProgramIds(env));
    if ctx.keys[6] != env.ids.clock then Err(Host(InvalidArgument))
    else if IsExpired(record, ctx.now) then Err(Failed(TradeTimeoutExceeded))
    else if !IsValidCycle(record.steps) then Err(Failed(TradeLoopVerificationFailed))
    else if !IsReadyForExecution(record.steps) then Err(Failed(MissingApprovals))
    else if |record.steps| > MAX_PARTICIPANTS_PER_TRANSACTION then Err(Failed(TooManyParticipants))
    else if ctx.keys[5] != env.ids.rent then Err(Host(InvalidArgument))
    else
      var settled :- SettleSteps(env, store, ctx, 7, record.steps);
      Ok(WriteLoop(env, settled.0, ctx, record.(steps := AllExecuted(record.steps))))
  }

  /** The position of the first step sent by `who` (`iter().position`). */
  function FirstStepFrom(steps: seq<TradeStep>, who: Pubkey): (r: Option<nat>)
    ensures r.Some? ==> r.value < |steps| && steps[r.value].from == who
    ensures r.Some? ==> forall j :: 0 <= j < r.value ==> steps[j].from != who
    ensures r.None? ==> forall j :: 0 <= j < |steps| ==> steps[j].from != who
  {
    if |steps| == 0 then None
    else if steps[0].from == who then Some(0)
    else match FirstStepFrom(steps[1..], who)
      case None => None
      case Some(i) => Some(i + 1)
  }

  /** Some step is approved (`iter().any`). */
  function AnyApproved(steps: seq<TradeStep>): (b: bool)
    ensures b <==> exists i :: 0 <= i < |steps| && steps[i].status == Approved
  {
    if |steps| == 0 then false
    else steps[0].status == Approved || AnyApproved(steps[1..])
  }

  /** `process_cancel_trade_loop`: the record is overwritten by zero bytes. */
  function CancelTradeLoopEffect(env: Env, store: Store, ctx: Context): Effect
  {
    var _ :- Require(PauseGate(env, store, ctx.keys));
    var record :- LoadLoop(env, store, ctx, 2, [], []);
    var first := FirstStepFrom(record.steps, ctx.keys[0]);
    if first.None? then Err(Failed(InvalidAccountOwner))
    else if record.steps[first.value].status != Created then Err(Failed(CancellationDenied))
    else if AnyApproved(record.steps) then Err(Failed(CancellationDenied))
    else Ok(WriteLoop(env, store, ctx, ZeroedLoop))
  }

  /** The signer may administer the configuration: it is the upgrade authority or the governance key. */
  function MayAdminister(config: ProgramConfig, signer: Pubkey): bool
  {
    config.upgradeAuthority == signer || config.governance == Some(signer)
  }

  /** `process_upgrade_program`; the loader's own work is the context's `loaderAccepts`. */
  function UpgradeProgramEffect(env: Env, store: Store, ctx: Context, newVersion: U32): Effect
  {
    if |ctx.keys| < 8 then Err(Host(NotEnoughAccountKeys))
    else if ctx.keys[0] !in ctx.signers then Err(Host(MissingRequiredSignature))
    else if ctx.keys[7] != env.configKey then Err(Failed(InvalidAccountData))
    else
      var account := AccountAt(store, ctx.keys[7], env.ids);
      var _ :- Require(VerifyAccountOwner(account.owner, env.programId));
      if !account.data.ConfigData? then Err(Host(BorshIoError))
      else
        var config := account.data.config;
        if !config.initialized then Err(Failed(UninitializedAccount))
        else if !MayAdminister(config, ctx.keys[0]) then Err(Failed(UpgradeAuthorityMismatch))
        else if newVersion <= config.version then Err(Failed(InvalidProgramVersion))
        else if ctx.keys[6] != env.ids.bpfLoaderUpgradeable then Err(Failed(IncorrectProgramId))
        else if !ctx.loaderAccepts then Err(Host(InvokeFailed))
        else Ok(store[ctx.keys[7] := Account(env.programId, ConfigData(config.(version := newVersion)))])
  }

  /** `process_initialize_program_config`. */
  function InitializeProgramConfigEffect(env: Env, store: Store, ctx: Context, governance: Option<Pubkey>): Effect
  {
    if |ctx.keys| < 4 then Err(Host(NotEnoughAccountKeys))
    else if ctx.keys[0] !in ctx.signers then Err(Host(MissingRequiredSignature))
    else if ctx.keys[3] != env.ids.system then Err(Failed(IncorrectProgramId))
    else if ctx.keys[1] != env.configKey then Err(Failed(InvalidAccountData))
    else if !AccountAt(store, ctx.keys[1], env.ids).data.Empty? then Err(Failed(InvalidAccountData))
    else if ctx.keys[2] != env.ids.rent then Err(Host(InvalidArgument))
    else
      var config := ProgramConfig(true, PROGRAM_VERSION, ctx.keys[0], governance, false);
      Ok(store[ctx.keys[1] := Account(env.programId, ConfigData(config))])
  }

  /** The supplied fields replace the stored ones; governance can be set but not cleared. */
  function ApplyConfigUpdate(config: ProgramConfig, newUpgradeAuthority: Option<Pubkey>,
                             newGovernance: Option<Pubkey>, newPausedState: Option<bool>): ProgramConfig
  {
    config.(
      upgradeAuthority := if newUpgradeAuthority.Some? then newUpgradeAuthority.value else config.upgradeAuthority,
      governance := if newGovernance.Some? then newGovernance else config.governance,
      paused := if newPausedState.Some? then newPausedState.value else config.paused)
  }

  /** `process_update_program_config`. */
  function UpdateProgramConfigEffect(env: Env, store: Store, ctx: Context, newUpgradeAuthority: Option<Pubkey>,
                                     newGovernance: Option<Pubkey>, newPausedState: Option<bool>): Effect
  {
    if |ctx.keys| < 2 then Err(Host(NotEnoughAccountKeys))
    else if ctx.keys[0] !in ctx.signers then Err(Host(MissingRequiredSignature))
    else
      var account := AccountAt(store, ctx.keys[1], env.ids);
      var _ :- Require(VerifyAccountOwner(account.owner, env.programId));
      if ctx.keys[1] != env.configKey then Err(Failed(InvalidAccountData))
      else if !account.data.ConfigData? then Err(Host(BorshIoError))
      else
        var config := account.data.config;
        if !config.initialized then Err(Failed(UninitializedAccount))
        else if !MayAdminister(config, ctx.keys[0]) then Err(Failed(UpgradeAuthorityMismatch))
        else
          var updated := ApplyConfigUpdate(config, newUpgradeAuthority, newGovernance, newPausedState);
          Ok(store[ctx.keys[1] := Account(env.programId, ConfigData(updated))])
  }

  /** `process_instruction`: one handler per command. */
  ghost function InstructionEffect(env: Env, store: Store, ctx: Context, c: SwapInstruction): Effect
  {
    match c
    case InitializeTradeLoop(tradeId, stepCount, timeoutSeconds) =>
      InitializeTradeLoopEffect(env, store, ctx, tradeId, stepCount, timeoutSeconds)
    case AddTradeStep(stepIndex, to, nftMints) => AddTradeStepEffect(env, store, ctx, stepIndex, to, nftMints)
    case ApproveTradeStep(stepIndex) => ApproveTradeStepEffect(env, store, ctx, stepIndex)
    case ExecuteTradeStep(stepIndex) => ExecuteTradeStepEffect(env, store, ctx, stepIndex)
    case ExecuteFullTradeLoop => ExecuteFullTradeLoopEffect(env, store, ctx)
    case CancelTradeLoop => CancelTradeLoopEffect(env, store, ctx)
    case UpgradeProgram(v) => UpgradeProgramEffect(env, store, ctx, v)
    case InitializeProgramConfig(governance) => InitializeProgramConfigEffect(env, store, ctx, governance)
    case UpdateProgramConfig(a, g, p) => UpdateProgramConfigEffect(env, store, ctx, a, g, p)
  }

  /** The entry point: decode the instruction bytes, then dispatch; a decoder panic aborts. */
  ghost function EntrypointEffect(env: Env, store: Store, ctx: Context, data: seq<Byte>): Effect
  {
    match Decode(data)
    case Decoded(c) => InstructionEffect(env, store, ctx, c)
    case Rejected(e) => Err(Failed(e))
    case Aborted => Err(Host(Panicked))
  }

  // ---------------------------------------------------------------------
  // The program, over its account store
  // ---------------------------------------------------------------------

  class SwapProgram {
    const env: Env
    var accounts: Store

    constructor (env: Env, accounts: Store)
      ensures this.env == env && this.accounts == accounts
    {
      this.env := env;
      this.accounts := accounts;
    }

    /** `check_program_not_paused`: scan the accounts for the configuration address. */
    method CheckProgramNotPaused(keys: seq<Pubkey>) returns (r: Check)
      ensures r == PauseGate(env, accounts, keys)
    {
      var i := 0;
      while i < |keys|
        invariant 0 <= i <= |keys|
        invariant env.configKey in keys[..i] ==> ConfigSkipped(env, accounts)
      {
        if keys[i] == env.configKey {
          var account := AccountAt(accounts, keys[i], env.ids);
          if account.owner != env.programId || account.data.Empty? {
            // not the configuration after all: keep scanning
          } else {
            match account.data {
              case ConfigData(config) =>
                if config.paused {
                  return Fail(InvalidInstructionData);
                }
                return Pass;
              case _ =>
                return Fail(InvalidAccountData);
            }
          }
        }
        i := i + 1;
      }
      assert keys[..i] == keys;
      return Pass;
    }

    method ProcessInitializeTradeLoop(ctx: Context, tradeId: Bytes32, stepCount: Byte, timeoutSeconds: U64)
      returns (r: ProgramResult)
      modifies this`accounts
      ensures var e := InitializeTradeLoopEffect(env, old(accounts), ctx, tradeId, stepCount, timeoutSeconds);
              r == Verdict(e) && accounts == Commit(old(accounts), e)
    {
      var gate := CheckProgramNotPaused(ctx.keys);
      if gate.Fail? {
        return Err(Failed(gate.error));
      }
      if stepCount == 0 {
        return Err(Failed(InvalidInstructionData));
      }
      if stepCount > MAX_PARTICIPANTS_PER_TRANSACTION {
        return Err(Failed(TooManyParticipants));
      }
      if timeoutSeconds > MAX_TIMEOUT_SECONDS {
        return Err(Failed(InvalidInstructionData));
      }
      if |ctx.keys| < 4 {
        return Err(Host(NotEnoughAccountKeys));
      }
      var payer, loopKey := ctx.keys[0], ctx.keys[1];
      if !AccountAt(accounts, loopKey, env.ids).data.Empty? {
        return Err(Failed(InvalidAccountData));
      }
      if payer !in ctx.signers {
        return Err(Host(MissingRequiredSignature));
      }
      if ctx.keys[2] != env.ids.rent {
        return Err(Host(InvalidArgument));
      }
      var currentTime := ctx.now;
      if currentTime as int + timeoutSeconds as int >= U64_LIMIT {
        return Err(Failed(InvalidInstructionData));
      }
      var expiresAt := currentTime + timeoutSeconds;
      var record := TradeLoop(true, tradeId, currentTime, expiresAt, [], stepCount, payer);
      accounts := accounts[loopKey := Account(env.programId, LoopData(record))];
      return Ok(());
    }

    /** The duplicate check of `process_add_trade_step`: insert each asset into a set, stop on a repeat. */
    method FindRepeatedMint(mints: seq<Pubkey>) returns (repeated: bool)
      ensures repeated <==> HasRepeatedMint(mints)
    {
      var unique: set<Pubkey> := {};
      for k := 0 to |mints|
        invariant unique == set i | 0 <= i < k :: mints[i]
        invariant !HasRepeatedMint(mints[..k])
      {
        if mints[k] in unique {
          var i :| 0 <= i < k && mints[i] == mints[k];
          assert mints[..k + 1][i] == mints[..k + 1][k];
          RepeatInPrefix(mints, k + 1, i, k);
          return true;
        }
        unique := unique + {mints[k]};
        NoRepeatExtends(mints, k);
      }
      assert mints[..|mints|] == mints;
      return false;
    }

    /** The ownership checks of `process_add_trade_step`, one asset after another. */
    method VerifySenderHoldsAssets(ctx: Context, start: nat, owner: Pubkey, mints: seq<Pubkey>)
      returns (r: Result<(), Failure>)
      ensures r == CheckOwnedAssets(env, accounts, ctx, start, owner, mints)
    {
      var pos := start;
      for k := 0 to |mints|
        invariant pos == start + 2 * k
        invariant CheckOwnedAssets(env, accounts, ctx, start, owner, mints)
                  == CheckOwnedAssets(env, accounts, ctx, pos, owner, mints[k..])
      {
        assert mints[k..][1..] == mints[k + 1..];
        var checked := CheckOwnedAsset(env, accounts, ctx, pos, owner, mints[k]);
        if checked.Err? {
          return checked;
        }
        pos := pos + 2;
      }
      return Ok(());
    }

    method ProcessAddTradeStep(ctx: Context, stepIndex: Byte, to: Pubkey, nftMints: seq<Pubkey>)
      returns (r: ProgramResult)
      modifies this`accounts
      ensures var e := AddTradeStepEffect(env, old(accounts), ctx, stepIndex, to, nftMints);
              r == Verdict(e) && accounts == Commit(old(accounts), e)
    {
      var gate := CheckProgramNotPaused(ctx.keys);
      if gate.Fail? {
        return Err(Failed(gate.error));
      }
      var loaded := LoadLoop(env, accounts, ctx, 3, [(2, env.ids.token)], []);
      if loaded.Err? {
        return Err(loaded.error);
      }
      var record := loaded.value;
      if stepIndex >= record.capacity {
        return Err(Failed(InvalidInstructionData));
      }
      if |nftMints| == 0 {
        return Err(Failed(InvalidInstructionData));
      }
      var repeated := FindRepeatedMint(nftMints);
      if repeated {
        return Err(Failed(InvalidInstructionData));
      }
      var from := ctx.keys[0];
      var held := VerifySenderHoldsAssets(ctx, 3, from, nftMints);
      if held.Err? {
        return Err(held.error);
      }
      var newStep := TradeStep(from, to, nftMints, Created);
      if stepIndex >= |record.steps| {
        record := record.(steps := record.steps + [newStep]);
      } else {
        record := record.(steps := record.steps[stepIndex := newStep]);
      }
      if |record.steps| == record.capacity {
        var valid := VerifyLoop(record.steps);
        if !valid {
          return Err(Failed(TradeLoopVerificationFailed));
        }
      }
      accounts := accounts[ctx.keys[1] := Account(env.programId, LoopData(record))];
      return Ok(());
    }

    method ProcessApproveTradeStep(ctx: Context, stepIndex: Byte) returns (r: ProgramResult)
      modifies this`accounts
      ensures var e := ApproveTradeStepEffect(env, old(accounts), ctx, stepIndex);
              r == Verdict(e) && accounts == Commit(old(accounts), e)
    {
      var gate := CheckProgramNotPaused(ctx.keys);
      if gate.Fail? {
        return Err(Failed(gate.error));
      }
      var loaded := LoadLoop(env, accounts, ctx, 3, [], []);
      if loaded.Err? {
        return Err(loaded.error);
      }
      var record := loaded.value;
      if ctx.keys[2] != env.ids.clock {
        return Err(Host(InvalidArgument));
      }
      if IsExpired(record, ctx.now) {
        return Err(Failed(TradeTimeoutExceeded));
      }
      if stepIndex >= |record.steps| {
        return Err(Failed(InvalidInstructionData));
      }
      var step := record.steps[stepIndex];
      if step.from != ctx.keys[0] {
        return Err(Failed(InvalidAccountOwner));
      }
      if step.status == Approved {
        return Ok(());
      }
      if step.status == Executed {
        return Err(Failed(StepAlreadyExecuted));
      }
      step := step.(status := Approved);
      record := record.(steps := record.steps[stepIndex := step]);
      accounts := accounts[ctx.keys[1] := Account(env.programId, LoopData(record))];
      return Ok(());
    }

    /** The transfer loop over one step's assets, three accounts per asset from `start`. */
    method TransferStepAssets(store: Store, ctx: Context, start: nat, sender: Pubkey, recipient: Pubkey,
                              mints: seq<Pubkey>) returns (r: Result<(Store, nat), Failure>)
      ensures r == MoveAssets(env, store, ctx, start, sender, recipient, mints)
    {
      var current, pos := store, start;
      for k := 0 to |mints|
        invariant pos == start + 3 * k
        invariant MoveAssets(env, store, ctx, start, sender, recipient, mints)
                  == MoveAssets(env, current, ctx, pos, sender, recipient, mints[k..])
      {
        assert mints[k..][1..] == mints[k + 1..];
        var moved := MoveAsset(env, current, ctx, pos, sender, recipient, mints[k]);
        if moved.Err? {
          return Err(moved.error);
        }
        current, pos := moved.value, pos + 3;
      }
      return Ok((current, pos));
    }

    method ProcessExecuteTradeStep(ctx: Context, stepIndex: Byte) returns (r: ProgramResult)
      modifies this`accounts
      ensures var e := ExecuteTradeStepEffect(env, old(accounts), ctx, stepIndex);
              r == Verdict(e) && accounts == Commit(old(accounts), e)
    {
      var gate := CheckProgramNotPaused(ctx.keys);
      if gate.Fail? {
        return Err(Failed(gate.error));
      }
      var loaded := LoadLoop(env, accounts, ctx, 8, [], ExecuteStepProgramIds(env));
      if loaded.Err? {
        return Err(loaded.error);
      }
      var record := loaded.value;
      if IsExpired(record, ctx.now) {
        return Err(Failed(TradeTimeoutExceeded));
      }
      if stepIndex >= |record.steps| {
        return Err(Failed(InvalidInstructionData));
      }
      var step := record.steps[stepIndex];
      if step.status != Approved {
        return Err(Failed(MissingApprovals));
      }
      if step.status == Executed {
        return Err(Failed(StepAlreadyExecuted));
      }
      var sender, recipient := ctx.keys[2], ctx.keys[3];
      if step.from != sender || step.to != recipient {
        return Err(Failed(InvalidAccountData));
      }
      if ctx.keys[7] != env.ids.rent {
        return Err(Host(InvalidArgument));
      }
      var moved := TransferStepAssets(accounts, ctx, 8, sender, recipient, step.nftMints);
      if moved.Err? {
        return Err(moved.error);
      }
      step := step.(status := Executed);
      record := record.(steps := record.steps[stepIndex := step]);
      accounts := moved.value.0[ctx.keys[1] := Account(env.programId, LoopData(record))];
      return Ok(());
    }

    /**
     * The settlement loop of `process_execute_full_trade_loop`: for each step
     * in turn, its sender and recipient accounts and then its assets, three
     * accounts each; each settled step is marked executed.
     */
    method SettleAllSteps(store: Store, ctx: Context, start: nat, steps: seq<TradeStep>)
      returns (r: Result<(Store, nat), Failure>, executed: seq<TradeStep>)
      ensures r == SettleSteps(env, store, ctx, start, steps)
      ensures r.Ok? ==> executed == AllExecuted(steps)
    {
      var current: Store, pos: nat := store, start;
      executed := steps;
      for k := 0 to |steps|
        invariant |executed| == |steps|
        invariant forall j :: 0 <= j < k ==> executed[j] == steps[j].(status := Executed)
        invariant forall j :: k <= j < |steps| ==> executed[j] == steps[j]
        invariant SettleSteps(env, store, ctx, start, steps) == SettleSteps(env, current, ctx, pos, steps[k..])
      {
        assert steps[k..][1..] == steps[k + 1..];
        var step := executed[k];
        if step.status == Executed {
          r := Err(Failed(StepAlreadyExecuted));
          return;
        }
        if |ctx.keys| < pos + 2 {
          r := Err(Host(NotEnoughAccountKeys));
          return;
        }
        var sender, recipient := ctx.keys[pos], ctx.keys[pos + 1];
        if step.from != sender || step.to != recipient {
          r := Err(Failed(InvalidAccountData));
          return;
        }
        var moved := TransferStepAssets(current, ctx, pos + 2, sender, recipient, step.nftMints);
        if moved.Err? {
          r := Err(moved.error);
          return;
        }
        current, pos := moved.value.0, moved.value.1;
        executed := executed[k := step.(status := Executed)];
      }
      r := Ok((current, pos));
    }

    method ProcessExecuteFullTradeLoop(ctx: Context) returns (r: ProgramResult)
      modifies this`accounts
      ensures var e := ExecuteFullTradeLoopEffect(env, old(accounts), ctx);
              r == Verdict(e) && accounts == Commit(old(accounts), e)
    {
      var gate := CheckProgramNotPaused(ctx.keys);
      if gate.Fail? {
        return Err(Failed(gate.error));
      }
      var loaded := LoadLoop(env, accounts, ctx, 7, [], ExecuteLoopProgramIds(env));
      if loaded.Err? {
        return Err(loaded.error);
      }
      var record := loaded.value;
      if ctx.keys[6] != env.ids.clock {
        return Err(Host(InvalidArgument));
      }
      if IsExpired(record, ctx.now) {
        return Err(Failed(TradeTimeoutExceeded));
      }
      var valid := VerifyLoop(record.steps);
      if !valid {
        return Err(Failed(TradeLoopVerificationFailed));
      }
      if !IsReadyForExecution(record.steps) {
        return Err(Failed(MissingApprovals));
      }
      if |record.steps| > MAX_PARTICIPANTS_PER_TRANSACTION {
        return Err(Failed(TooManyParticipants));
      }
      if ctx.keys[5] != env.ids.rent {
        return Err(Host(InvalidArgument));
      }
      var settled, steps := SettleAllSteps(accounts, ctx, 7, record.steps);
      if settled.Err? {
        return Err(settled.error);
      }
      record := record.(steps := steps);
      accounts := settled.value.0[ctx.keys[1] := Account(env.programId, LoopData(record))];
      return Ok(());
    }

    method ProcessCancelTradeLoop(ctx: Context) returns (r: ProgramResult)
      modifies this`accounts
      ensures var e := CancelTradeLoopEffect(env, old(accounts), ctx);
              r == Verdict(e) && accounts == Commit(old(accounts), e)
    {
      var gate := CheckProgramNotPaused(ctx.keys);
      if gate.Fail? {
        return Err(Failed(gate.error));
      }
      var loaded := LoadLoop(env, accounts, ctx, 2, [], []);
      if loaded.Err? {
        return Err(loaded.error);
      }
      var record := loaded.value;
      var canceller := ctx.keys[0];
      var i := 0;
      while i < |record.steps| && record.steps[i].from != canceller
        invariant 0 <= i <= |record.steps|
        invariant forall j :: 0 <= j < i ==> record.steps[j].from != canceller
      {
        i := i + 1;
      }
      if i == |record.steps| {
        return Err(Failed(InvalidAccountOwner));
      }
      if record.steps[i].status != Created {
        return Err(Failed(CancellationDenied));
      }
      if AnyApproved(record.steps) {
        return Err(Failed(CancellationDenied));
      }
      accounts := accounts[ctx.keys[1] := Account(env.programId, LoopData(ZeroedLoop))];
      return Ok(());
    }

    method ProcessUpgradeProgram(ctx: Context, newVersion: U32) returns (r: ProgramResult)
      modifies this`accounts
      ensures var e := UpgradeProgramEffect(env, old(accounts), ctx, newVersion);
              r == Verdict(e) && accounts == Commit(old(accounts), e)
    {
      if |ctx.keys| < 8 {
        return Err(Host(NotEnoughAccountKeys));
      }
      var authority, configKey := ctx.keys[0], ctx.keys[7];
      if authority !in ctx.signers {
        return Err(Host(MissingRequiredSignature));
      }
      if configKey != env.configKey {
        return Err(Failed(InvalidAccountData));
      }
      var account := AccountAt(accounts, configKey, env.ids);
      if account.owner != env.programId {
        return Err(Failed(InvalidAccountOwner));
      }
      if !account.data.ConfigData? {
        return Err(Host(BorshIoError));
      }
      var config := account.data.config;
      if !config.initialized {
        return Err(Failed(UninitializedAccount));
      }
      if config.upgradeAuthority != authority {
        match config.governance {
          case Some(governance) =>
            if governance != authority {
              return Err(Failed(UpgradeAuthorityMismatch));
            }
          case None =>
            return Err(Failed(UpgradeAuthorityMismatch));
        }
      }
      if newVersion <= config.version {
        return Err(Failed(InvalidProgramVersion));
      }
      if ctx.keys[6] != env.ids.bpfLoaderUpgradeable {
        return Err(Failed(IncorrectProgramId));
      }
      if !ctx.loaderAccepts {
        return Err(Host(InvokeFailed));
      }
      config := config.(version := newVersion);
      accounts := accounts[configKey := Account(env.programId, ConfigData(config))];
      return Ok(());
    }

    method ProcessInitializeProgramConfig(ctx: Context, governance: Option<Pubkey>) returns (r: ProgramResult)
      modifies this`accounts
      ensures var e := InitializeProgramConfigEffect(env, old(accounts), ctx, governance);
              r == Verdict(e) && accounts == Commit(old(accounts), e)
    {
      if |ctx.keys| < 4 {
        return Err(Host(NotEnoughAccountKeys));
      }
      var authority, configKey := ctx.keys[0], ctx.keys[1];
      if authority !in ctx.signers {
        return Err(Host(MissingRequiredSignature));
      }
      if ctx.keys[3] != env.ids.system {
        return Err(Failed(IncorrectProgramId));
      }
      if configKey != env.configKey {
        return Err(Failed(InvalidAccountData));
      }
      if !AccountAt(accounts, configKey, env.ids).data.Empty? {
        return Err(Failed(InvalidAccountData));
      }
      if ctx.keys[2] != env.ids.rent {
        return Err(Host(InvalidArgument));
      }
      var config := ProgramConfig(true, PROGRAM_VERSION, authority, governance, false);
      accounts := accounts[configKey := Account(env.programId, ConfigData(config))];
      return Ok(());
    }

    method ProcessUpdateProgramConfig(ctx: Context, newUpgradeAuthority: Option<Pubkey>,
                                      newGovernance: Option<Pubkey>, newPausedState: Option<bool>)
      returns (r: ProgramResult)
      modifies this`accounts
      ensures var e := UpdateProgramConfigEffect(env, old(accounts), ctx, newUpgradeAuthority, newGovernance, newPausedState);
              r == Verdict(e) && accounts == Commit(old(accounts), e)
    {
      if |ctx.keys| < 2 {
        return Err(Host(NotEnoughAccountKeys));
      }
      var authority, configKey := ctx.keys[0], ctx.keys[1];
      if authority !in ctx.signers {
        return Err(Host(MissingRequiredSignature));
      }
      var account := AccountAt(accounts, configKey, env.ids);
      if account.owner != env.programId {
        return Err(Failed(InvalidAccountOwner));
      }
      if configKey != env.configKey {
        return Err(Failed(InvalidAccountData));
      }
      if !account.data.ConfigData? {
        return Err(Host(BorshIoError));
      }
      var config := account.data.config;
      if !config.initialized {
        return Err(Failed(UninitializedAccount));
      }
      if config.upgradeAuthority != authority {
        match config.governance {
          case Some(governance) =>
            if governance != authority {
              return Err(Failed(UpgradeAuthorityMismatch));
            }
          case None =>
            return Err(Failed(UpgradeAuthorityMismatch));
        }
      }
      if newUpgradeAuthority.Some? {
        config := config.(upgradeAuthority := newUpgradeAuthority.value);
      }
      if newGovernance.Some? {
        config := config.(governance := Some(newGovernance.value));
      }
      if newPausedState.Some? {
        config := config.(paused := newPausedState.value);
      }
      accounts := accounts[configKey := Account(env.programId, ConfigData(config))];
      return Ok(());
    }

    /** `process_instruction`: hand the decoded command to its handler. */
    method ProcessInstruction(ctx: Context, c: SwapInstruction) returns (r: ProgramResult)
      modifies this`accounts
      ensures var e := InstructionEffect(env, old(accounts), ctx, c);
              r == Verdict(e) && accounts == Commit(old(accounts), e)
    {
      match c {
        case InitializeTradeLoop(tradeId, stepCount, timeoutSeconds) =>
          r := ProcessInitializeTradeLoop(ctx, tradeId, stepCount, timeoutSeconds);
        case AddTradeStep(stepIndex, to, nftMints) =>
          r := ProcessAddTradeStep(ctx, stepIndex, to, nftMints);
        case ApproveTradeStep(stepIndex) =>
          r := ProcessApproveTradeStep(ctx, stepIndex);
        case ExecuteTradeStep(stepIndex) =>
          r := ProcessExecuteTradeStep(ctx, stepIndex);
        case ExecuteFullTradeLoop =>
          r := ProcessExecuteFullTradeLoop(ctx);
        case CancelTradeLoop =>
          r := ProcessCancelTradeLoop(ctx);
        case UpgradeProgram(v) =>
          r := ProcessUpgradeProgram(ctx, v);
        case InitializeProgramConfig(governance) =>
          r := ProcessInitializeProgramConfig(ctx, governance);
        case UpdateProgramConfig(a, g, p) =>
          r := ProcessUpdateProgramConfig(ctx, a, g, p);
      }
    }

    /** The entry point: unpack the instruction bytes, then process the command. */
    method ProcessEntrypoint(ctx: Context, data: seq<Byte>) returns (r: ProgramResult)
      modifies this`accounts
      ensures var e := EntrypointEffect(env, old(accounts), ctx, data);
              r == Verdict(e) && accounts == Commit(old(accounts), e)
    {
      var decoded := Unpack(data);
      match decoded {
        case Decoded(c) =>
          r := ProcessInstruction(ctx, c);
        case Rejected(e) =>
          r := Err(Failed(e));
        case Aborted =>
          r := Err(Host(Panicked));
      }
    }
  }

  // ---------------------------------------------------------------------
  // Helper lemmas for the duplicate scan
  // ---------------------------------------------------------------------

  lemma RepeatInPrefix(mints: seq<Pubkey>, n: nat, i: nat, j: nat)
    requires i < j < n <= |mints| && mints[i] == mints[j]
    ensures HasRepeatedMint(mints[..n])
  {
    assert mints[..n][i] == mints[..n][j];
  }

  lemma NoRepeatExtends(mints: seq<Pubkey>, k: nat)
    requires k < |mints| && !HasRepeatedMint(mints[..k])
    requires forall i :: 0 <= i < k ==> mints[i] != mints[k]
    ensures !HasRepeatedMint(mints[..k + 1])
  {
    var prefix := mints[..k + 1];
    forall i, j | 0 <= i < j < k + 1 ensures prefix[i] != prefix[j] {
      if j < k {
        assert mints[..k][i] == prefix[i] && mints[..k][j] == prefix[j];
      }
    }
  }
}
