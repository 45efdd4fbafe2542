/**
 * The trade-loop handlers: the order of their guards, the record each
 * successful handler leaves behind, and how the pause gate applies to them.
 */
module TradeProperties {
  import opened Wrappers
  import opened Bytes
  import opened Errors
  import opened State
  import opened Utils
  import opened Instruction
  import opened Ledger
  import opened Processor
  import opened Settlement

  /** The trade loop a program-owned account holds, if any. */
  ghost function LoopAt(env: Env, store: Store, key: Pubkey): Option<TradeLoop>
  {
    var account := AccountAt(store, key, env.ids);
    if account.owner == env.programId && account.data.LoopData? then Some(account.data.loop) else None
  }

  // ---------------------------------------------------------------------
  // The pause gate
  // ---------------------------------------------------------------------

  /**
   * The gate passes when the configuration account is not passed, or is
   * passed but not owned by the program or empty; it fails when that account
   * holds a paused configuration or something that is not a configuration.
   */
  lemma PauseGateOutcome(env: Env, store: Store, keys: seq<Pubkey>)
    ensures env.configKey !in keys ==> PauseGate(env, store, keys) == Pass
    ensures ConfigSkipped(env, store) ==> PauseGate(env, store, keys) == Pass
    ensures var account := AccountAt(store, env.configKey, env.ids);
            env.configKey in keys && !ConfigSkipped(env, store) ==>
              (!account.data.ConfigData? ==> PauseGate(env, store, keys) == Fail(InvalidAccountData)) &&
              (account.data.ConfigData? ==>
                 (PauseGate(env, store, keys) == Pass <==> !account.data.config.paused))
  {
  }

  /** The six trade-loop commands; the three configuration commands are not gated. */
  predicate IsGated(c: SwapInstruction)
  {
    !(c.UpgradeProgram? || c.InitializeProgramConfig? || c.UpdateProgramConfig?)
  }

  /** While the configuration says paused, every trade-loop command that passes it fails. */
  lemma PausedBlocksTradeCommands(env: Env, store: Store, ctx: Context, c: SwapInstruction)
    requires IsGated(c)
    requires env.configKey in ctx.keys
    requires AccountAt(store, env.configKey, env.ids).owner == env.programId
    requires AccountAt(store, env.configKey, env.ids).data.ConfigData?
    requires AccountAt(store, env.configKey, env.ids).data.config.paused
    ensures InstructionEffect(env, store, ctx, c) == Err(Failed(InvalidInstructionData))
  {
    assert PauseGate(env, store, ctx.keys) == Fail(InvalidInstructionData);
  }

  /** A store with the stored configuration's pause flag set to `paused`. */
  function WithPauseFlag(env: Env, store: Store, paused: bool): Store
  {
    var account := AccountAt(store, env.configKey, env.ids);
    if account.data.ConfigData? then
      store[env.configKey := account.(data := ConfigData(account.data.config.(paused := paused)))]
    else store
  }

  /** The configuration commands succeed or fail the same way whatever the pause flag says. */
  lemma ConfigCommandsIgnorePause(env: Env, store: Store, ctx: Context, c: SwapInstruction, paused: bool)
    requires !IsGated(c)
    ensures Verdict(InstructionEffect(env, WithPauseFlag(env, store, paused), ctx, c))
            == Verdict(InstructionEffect(env, store, ctx, c))
  {
  }

  // ---------------------------------------------------------------------
  // Initialize
  // ---------------------------------------------------------------------

  /**
   * Initialization checks the step count (zero, then above eleven), then
   * the timeout, then that the loop account is still empty, then the
   * payer's signature, then the Rent sysvar account, then that the expiry
   * does not overflow 64 bits.
   */
  lemma InitializeOutcome(env: Env, store: Store, ctx: Context, tradeId: Bytes32, stepCount: Byte, timeoutSeconds: U64)
    requires PauseGate(env, store, ctx.keys) == Pass
    ensures var e := InitializeTradeLoopEffect(env, store, ctx, tradeId, stepCount, timeoutSeconds);
            && (stepCount == 0 ==> e == Err(Failed(InvalidInstructionData)))
            && (0 < stepCount && stepCount > MAX_PARTICIPANTS_PER_TRANSACTION ==> e == Err(Failed(TooManyParticipants)))
            && (0 < stepCount <= MAX_PARTICIPANTS_PER_TRANSACTION && timeoutSeconds > MAX_TIMEOUT_SECONDS ==>
                  e == Err(Failed(InvalidInstructionData)))
            && (0 < stepCount <= MAX_PARTICIPANTS_PER_TRANSACTION && timeoutSeconds <= MAX_TIMEOUT_SECONDS &&
                |ctx.keys| >= 4 && !AccountAt(store, ctx.keys[1], env.ids).data.Empty? ==>
                  e == Err(Failed(InvalidAccountData)))
            && (0 < stepCount <= MAX_PARTICIPANTS_PER_TRANSACTION && timeoutSeconds <= MAX_TIMEOUT_SECONDS &&
                |ctx.keys| >= 4 && AccountAt(store, ctx.keys[1], env.ids).data.Empty? ==>
                  && (ctx.keys[0] !in ctx.signers ==> e == Err(Host(MissingRequiredSignature)))
                  && (ctx.keys[0] in ctx.signers && ctx.keys[2] != env.ids.rent ==> e == Err(Host(InvalidArgument)))
                  && (ctx.keys[0] in ctx.signers && ctx.keys[2] == env.ids.rent &&
                      ctx.now as int + timeoutSeconds as int >= U64_LIMIT ==>
                        e == Err(Failed(InvalidInstructionData))))
  {
  }

  lemma InitializeCreatesLoop(env: Env, store: Store, ctx: Context, tradeId: Bytes32, stepCount: Byte, timeoutSeconds: U64)
    ensures var e := InitializeTradeLoopEffect(env, store, ctx, tradeId, stepCount, timeoutSeconds);
            e.Ok? <==> (PauseGate(env, store, ctx.keys) == Pass &&
                        0 < stepCount <= MAX_PARTICIPANTS_PER_TRANSACTION && timeoutSeconds <= MAX_TIMEOUT_SECONDS &&
                        |ctx.keys| >= 4 && AccountAt(store, ctx.keys[1], env.ids).data.Empty? &&
                        ctx.keys[0] in ctx.signers && ctx.keys[2] == env.ids.rent &&
                        ctx.now + timeoutSeconds < U64_LIMIT)
    ensures var e := InitializeTradeLoopEffect(env, store, ctx, tradeId, stepCount, timeoutSeconds);
            e.Ok? ==>
              && SameExcept(store, e.value, {ctx.keys[1]})
              && LoopAt(env, e.value, ctx.keys[1]).Some?
              && var record := LoopAt(env, e.value, ctx.keys[1]).value;
              && record.initialized && record.tradeId == tradeId && record.steps == []
              && record.capacity == stepCount && record.authority == ctx.keys[0]
              && record.createdAt == ctx.now && record.expiresAt - record.createdAt == timeoutSeconds
  {
  }

  // ---------------------------------------------------------------------
  // Add a step
  // ---------------------------------------------------------------------

  function AddLoad(env: Env, store: Store, ctx: Context): Result<TradeLoop, Failure>
  {
    LoadLoop(env, store, ctx, 3, [(2, env.ids.token)], [])
  }

  /** An index at or past the capacity, an empty asset list or a repeated asset is rejected. */
  lemma AddRejectsBadArguments(env: Env, store: Store, ctx: Context, stepIndex: Byte, to: Pubkey, nftMints: seq<Pubkey>)
    requires PauseGate(env, store, ctx.keys) == Pass && AddLoad(env, store, ctx).Ok?
    requires stepIndex >= AddLoad(env, store, ctx).value.capacity || |nftMints| == 0 || HasRepeatedMint(nftMints)
    ensures AddTradeStepEffect(env, store, ctx, stepIndex, to, nftMints) == Err(Failed(InvalidInstructionData))
  {
  }

  /**
   * A successful add stores a created step from the signer: appended when
   * the index is at or past the end (even well past it), otherwise
   * replacing exactly the step at the index whatever its status; the other
   * steps and fields stay, the loop stays within its capacity, and a full
   * loop is a valid cycle.
   */
  lemma AddPlacesStep(env: Env, store: Store, ctx: Context, stepIndex: Byte, to: Pubkey, nftMints: seq<Pubkey>)
    requires AddTradeStepEffect(env, store, ctx, stepIndex, to, nftMints).Ok?
    ensures AddLoad(env, store, ctx).Ok? && |ctx.keys| >= 3
    ensures var after := AddTradeStepEffect(env, store, ctx, stepIndex, to, nftMints).value;
            var record := AddLoad(env, store, ctx).value;
            var step := TradeStep(ctx.keys[0], to, nftMints, Created);
            && SameExcept(store, after, {ctx.keys[1]})
            && LoopAt(env, after, ctx.keys[1]).Some?
            && var steps := LoopAt(env, after, ctx.keys[1]).value.steps;
            && LoopAt(env, after, ctx.keys[1]).value == record.(steps := steps)
            && (stepIndex >= |record.steps| ==> steps == record.steps + [step])
            && (stepIndex < |record.steps| ==>
                  |steps| == |record.steps| && steps[stepIndex] == step &&
                  forall j :: 0 <= j < |steps| && j != stepIndex as int ==> steps[j] == record.steps[j])
            && (|record.steps| <= record.capacity ==> |steps| <= record.capacity)
            && (|steps| == record.capacity ==> IsValidCycle(steps))
  {
  }

  /**
   * Given valid arguments and assets, an add that fills the loop succeeds
   * exactly when the steps form a valid cycle; one that does not fill it
   * always succeeds.
   */
  lemma AddChecksCycleOnlyWhenFull(env: Env, store: Store, ctx: Context, stepIndex: Byte, to: Pubkey, nftMints: seq<Pubkey>)
    requires PauseGate(env, store, ctx.keys) == Pass && AddLoad(env, store, ctx).Ok?
    requires stepIndex < AddLoad(env, store, ctx).value.capacity && |nftMints| > 0 && !HasRepeatedMint(nftMints)
    requires CheckOwnedAssets(env, store, ctx, 3, ctx.keys[0], nftMints) == Ok(())
    ensures var record := AddLoad(env, store, ctx).value;
            var steps := PlaceStep(record.steps, stepIndex, TradeStep(ctx.keys[0], to, nftMints, Created));
            var e := AddTradeStepEffect(env, store, ctx, stepIndex, to, nftMints);
            && (|steps| == record.capacity && !IsValidCycle(steps) ==> e == Err(Failed(TradeLoopVerificationFailed)))
            && (|steps| != record.capacity ==> e.Ok?)
            && (e.Ok? <==> (|steps| != record.capacity || IsValidCycle(steps)))
  {
  }

  // ---------------------------------------------------------------------
  // Approve a step
  // ---------------------------------------------------------------------

  function ApproveLoad(env: Env, store: Store, ctx: Context): Result<TradeLoop, Failure>
  {
    LoadLoop(env, store, ctx, 3, [], [])
  }

  /**
   * Approval checks the Clock sysvar account, expiry, the index, then that
   * the signer is the step's sender; an approved step is left as it is, an
   * executed one is refused, and a created one becomes approved with
   * nothing else changed.
   */
  lemma ApproveOutcome(env: Env, store: Store, ctx: Context, stepIndex: Byte)
    requires PauseGate(env, store, ctx.keys) == Pass && ApproveLoad(env, store, ctx).Ok?
    ensures var record := ApproveLoad(env, store, ctx).value;
            var e := ApproveTradeStepEffect(env, store, ctx, stepIndex);
            var clockOk := ctx.keys[2] == env.ids.clock;
            && (!clockOk ==> e == Err(Host(InvalidArgument)))
            && (clockOk && IsExpired(record, ctx.now) ==> e == Err(Failed(TradeTimeoutExceeded)))
            && (clockOk && !IsExpired(record, ctx.now) && stepIndex >= |record.steps| ==>
                  e == Err(Failed(InvalidInstructionData)))
            && (clockOk && !IsExpired(record, ctx.now) && stepIndex < |record.steps| ==>
                  var step := record.steps[stepIndex];
                  && (step.from != ctx.keys[0] ==> e == Err(Failed(InvalidAccountOwner)))
                  && (step.from == ctx.keys[0] && step.status == Approved ==> e == Ok(store))
                  && (step.from == ctx.keys[0] && step.status == Executed ==> e == Err(Failed(StepAlreadyExecuted)))
                  && (step.from == ctx.keys[0] && step.status == Created ==>
                        e.Ok? && SameExcept(store, e.value, {ctx.keys[1]}) &&
                        LoopAt(env, e.value, ctx.keys[1])
                        == Some(record.(steps := record.steps[stepIndex := step.(status := Approved)]))))
  {
  }

  /** Approving the same step twice changes nothing the second time. */
  lemma ApproveIdempotent(env: Env, store: Store, ctx: Context, stepIndex: Byte)
    requires ApproveTradeStepEffect(env, store, ctx, stepIndex).Ok?
    ensures var once := ApproveTradeStepEffect(env, store, ctx, stepIndex).value;
            ApproveTradeStepEffect(env, once, ctx, stepIndex) == Ok(once)
  {
    var once := ApproveTradeStepEffect(env, store, ctx, stepIndex).value;
    var loopKey := ctx.keys[1];
    assert loopKey != env.configKey || env.configKey !in ctx.keys;
    assert AccountAt(once, env.configKey, env.ids) == AccountAt(store, env.configKey, env.ids);
    assert PauseGate(env, once, ctx.keys) == PauseGate(env, store, ctx.keys);
  }

  // ---------------------------------------------------------------------
  // Execute one step
  // ---------------------------------------------------------------------

  function ExecuteStepLoad(env: Env, store: Store, ctx: Context): Result<TradeLoop, Failure>
  {
    LoadLoop(env, store, ctx, 8, [], ExecuteStepProgramIds(env))
  }

  /** A step that is not approved, including an executed one, gets `MissingApprovals`. */
  lemma ExecuteStepNeedsApproval(env: Env, store: Store, ctx: Context, stepIndex: Byte)
    requires PauseGate(env, store, ctx.keys) == Pass && ExecuteStepLoad(env, store, ctx).Ok?
    requires !IsExpired(ExecuteStepLoad(env, store, ctx).value, ctx.now)
    requires stepIndex < |ExecuteStepLoad(env, store, ctx).value.steps|
    requires ExecuteStepLoad(env, store, ctx).value.steps[stepIndex].status != Approved
    ensures ExecuteTradeStepEffect(env, store, ctx, stepIndex) == Err(Failed(MissingApprovals))
  {
  }

  /**
   * An approved step executed with a sender or recipient account other
   * than the step's own gets `InvalidAccountData`; with both right, a Rent
   * sysvar account that is not that sysvar gets `InvalidArgument`.
   */
  lemma ExecuteStepChecksParticipants(env: Env, store: Store, ctx: Context, stepIndex: Byte)
    requires PauseGate(env, store, ctx.keys) == Pass && ExecuteStepLoad(env, store, ctx).Ok?
    requires !IsExpired(ExecuteStepLoad(env, store, ctx).value, ctx.now)
    requires stepIndex < |ExecuteStepLoad(env, store, ctx).value.steps|
    requires ExecuteStepLoad(env, store, ctx).value.steps[stepIndex].status == Approved
    ensures var step := ExecuteStepLoad(env, store, ctx).value.steps[stepIndex];
            var e := ExecuteTradeStepEffect(env, store, ctx, stepIndex);
            && (step.from != ctx.keys[2] || step.to != ctx.keys[3] ==> e == Err(Failed(InvalidAccountData)))
            && (step.from == ctx.keys[2] && step.to == ctx.keys[3] && ctx.keys[7] != env.ids.rent ==>
                  e == Err(Host(InvalidArgument)))
  {
  }

  /** Executing one step never reports `StepAlreadyExecuted`: that check comes after the approval check. */
  lemma ExecuteStepNeverReportsExecutedStep(env: Env, store: Store, ctx: Context, stepIndex: Byte)
    ensures ExecuteTradeStepEffect(env, store, ctx, stepIndex) != Err(Failed(StepAlreadyExecuted))
  {
    if |ctx.keys| >= 8 {
      var loaded := ExecuteStepLoad(env, store, ctx);
      if loaded.Ok? && stepIndex < |loaded.value.steps| {
        MoveAssetsNeverReportExecutedStep(env, store, ctx, 8, ctx.keys[2], ctx.keys[3],
                                          loaded.value.steps[stepIndex].nftMints);
      }
    }
  }

  /**
   * A successful execution had an approved step whose sender and recipient
   * were the given accounts; only that step becomes executed, and apart
   * from the loop account only token-program accounts change.
   */
  lemma ExecuteStepMarksOnlyThatStep(env: Env, store: Store, ctx: Context, stepIndex: Byte)
    requires ExecuteTradeStepEffect(env, store, ctx, stepIndex).Ok?
    ensures ExecuteStepLoad(env, store, ctx).Ok? && |ctx.keys| >= 8
    ensures var record := ExecuteStepLoad(env, store, ctx).value;
            var after := ExecuteTradeStepEffect(env, store, ctx, stepIndex).value;
            && !IsExpired(record, ctx.now)
            && stepIndex < |record.steps|
            && record.steps[stepIndex].status == Approved
            && record.steps[stepIndex].from == ctx.keys[2] && record.steps[stepIndex].to == ctx.keys[3]
            && ctx.keys[7] == env.ids.rent
            && LoopAt(env, after, ctx.keys[1])
               == Some(record.(steps := record.steps[stepIndex := record.steps[stepIndex].(status := Executed)]))
            && OnlyTouches(store, after, env.ids.token, {ctx.keys[1]})
  {
    var record := ExecuteStepLoad(env, store, ctx).value;
    var step := record.steps[stepIndex];
    var moved := MoveAssets(env, store, ctx, 8, ctx.keys[2], ctx.keys[3], step.nftMints);
    MoveAssetsOnlyTouchTokenAccounts(env, store, ctx, 8, ctx.keys[2], ctx.keys[3], step.nftMints);
    assert OnlyTouches(store, moved.value.0, env.ids.token, {ctx.keys[1]});
  }

  // ---------------------------------------------------------------------
  // Execute the whole loop
  // ---------------------------------------------------------------------

  function FullLoad(env: Env, store: Store, ctx: Context): Result<TradeLoop, Failure>
  {
    LoadLoop(env, store, ctx, 7, [], ExecuteLoopProgramIds(env))
  }

  /**
   * Full execution checks the Clock sysvar account, expiry, then the cycle,
   * then approvals, then the participant limit, then the Rent sysvar account.
   */
  lemma FullGuardOrder(env: Env, store: Store, ctx: Context)
    requires PauseGate(env, store, ctx.keys) == Pass && FullLoad(env, store, ctx).Ok?
    ensures var steps := FullLoad(env, store, ctx).value.steps;
            var expired := IsExpired(FullLoad(env, store, ctx).value, ctx.now);
            var e := ExecuteFullTradeLoopEffect(env, store, ctx);
            var clockOk := ctx.keys[6] == env.ids.clock;
            && (!clockOk ==> e == Err(Host(InvalidArgument)))
            && (clockOk && expired ==> e == Err(Failed(TradeTimeoutExceeded)))
            && (clockOk && !expired && !IsValidCycle(steps) ==> e == Err(Failed(TradeLoopVerificationFailed)))
            && (clockOk && !expired && IsValidCycle(steps) && !IsReadyForExecution(steps) ==>
                  e == Err(Failed(MissingApprovals)))
            && (clockOk && !expired && IsValidCycle(steps) && IsReadyForExecution(steps) &&
                |steps| > MAX_PARTICIPANTS_PER_TRANSACTION ==>
                  e == Err(Failed(TooManyParticipants)))
            && (clockOk && !expired && IsValidCycle(steps) && IsReadyForExecution(steps) &&
                |steps| <= MAX_PARTICIPANTS_PER_TRANSACTION && ctx.keys[5] != env.ids.rent ==>
                  e == Err(Host(InvalidArgument)))
  {
  }

  /**
   * A successful full execution settled a valid, fully approved loop of at
   * most eleven steps; every step becomes executed, and apart from the loop
   * account only token-program accounts change.
   */
  lemma FullSettlesApprovedCycle(env: Env, store: Store, ctx: Context)
    requires ExecuteFullTradeLoopEffect(env, store, ctx).Ok?
    ensures FullLoad(env, store, ctx).Ok? && |ctx.keys| >= 7
    ensures var record := FullLoad(env, store, ctx).value;
            var after := ExecuteFullTradeLoopEffect(env, store, ctx).value;
            && ctx.keys[6] == env.ids.clock && ctx.keys[5] == env.ids.rent
            && !IsExpired(record, ctx.now)
            && IsValidCycle(record.steps) && IsReadyForExecution(record.steps)
            && |record.steps| <= MAX_PARTICIPANTS_PER_TRANSACTION
            && LoopAt(env, after, ctx.keys[1]).Some?
            && var steps := LoopAt(env, after, ctx.keys[1]).value.steps;
            && LoopAt(env, after, ctx.keys[1]).value == record.(steps := steps)
            && |steps| == |record.steps|
            && (forall i :: 0 <= i < |steps| ==> steps[i].status == Executed)
            && (forall i :: 0 <= i < |steps| ==> steps[i].(status := Approved) == record.steps[i])
            && OnlyTouches(store, after, env.ids.token, {ctx.keys[1]})
  {
    var record := FullLoad(env, store, ctx).value;
    assert PauseGate(env, store, ctx.keys) == Pass;
    assert !IsExpired(record, ctx.now) && IsValidCycle(record.steps) && IsReadyForExecution(record.steps);
    assert |record.steps| <= MAX_PARTICIPANTS_PER_TRANSACTION;
    var settled := SettleSteps(env, store, ctx, 7, record.steps);
    assert settled.Ok?;
    var written := record.(steps := AllExecuted(record.steps));
    var after := WriteLoop(env, settled.value.0, ctx, written);
    assert ExecuteFullTradeLoopEffect(env, store, ctx) == Ok(after);
    assert LoopAt(env, after, ctx.keys[1]) == Some(written);
    SettleStepsOnlyTouchTokenAccounts(env, store, ctx, 7, record.steps);
    assert OnlyTouches(store, settled.value.0, env.ids.token, {ctx.keys[1]});
  }

  /** Full execution never reports `StepAlreadyExecuted`: every step was approved before settlement. */
  lemma FullNeverReportsExecutedStep(env: Env, store: Store, ctx: Context)
    ensures ExecuteFullTradeLoopEffect(env, store, ctx) != Err(Failed(StepAlreadyExecuted))
  {
    var loaded := FullLoad(env, store, ctx);
    if loaded.Ok? && IsReadyForExecution(loaded.value.steps) {
      SettleStepsNeverReportExecutedStep(env, store, ctx, 7, loaded.value.steps);
    }
  }

  // ---------------------------------------------------------------------
  // Cancel
  // ---------------------------------------------------------------------

  function CancelLoad(env: Env, store: Store, ctx: Context): Result<TradeLoop, Failure>
  {
    LoadLoop(env, store, ctx, 2, [], [])
  }

  /**
   * Only a participant may cancel, only while their first step is still
   * created and no step anywhere is approved; executed steps and expiry do
   * not stand in the way. A cancelled loop is erased.
   */
  lemma CancelOutcome(env: Env, store: Store, ctx: Context)
    requires PauseGate(env, store, ctx.keys) == Pass && CancelLoad(env, store, ctx).Ok?
    ensures var steps := CancelLoad(env, store, ctx).value.steps;
            var canceller := ctx.keys[0];
            var e := CancelTradeLoopEffect(env, store, ctx);
            && ((forall i :: 0 <= i < |steps| ==> steps[i].from != canceller) ==> e == Err(Failed(InvalidAccountOwner)))
            && (forall i ::
                  (0 <= i < |steps| && steps[i].from == canceller &&
                   (forall j :: 0 <= j < i ==> steps[j].from != canceller)) ==>
                  && (steps[i].status != Created ==> e == Err(Failed(CancellationDenied)))
                  && (steps[i].status == Created && (exists j :: 0 <= j < |steps| && steps[j].status == Approved) ==>
                        e == Err(Failed(CancellationDenied)))
                  && (steps[i].status == Created && (forall j :: 0 <= j < |steps| ==> steps[j].status != Approved) ==>
                        e.Ok? && SameExcept(store, e.value, {ctx.keys[1]}) &&
                        LoopAt(env, e.value, ctx.keys[1]) == Some(ZeroedLoop)))
  {
    var steps := CancelLoad(env, store, ctx).value.steps;
    var first := FirstStepFrom(steps, ctx.keys[0]);
    forall i | 0 <= i < |steps| && steps[i].from == ctx.keys[0] && (forall j :: 0 <= j < i ==> steps[j].from != ctx.keys[0])
      ensures first == Some(i)
    {
    }
  }

  /** Cancelling does not look at the clock. */
  lemma CancelIgnoresClock(env: Env, store: Store, ctx: Context, now: U64)
    ensures CancelTradeLoopEffect(env, store, ctx.(now := now)) == CancelTradeLoopEffect(env, store, ctx)
  {
  }

  /** After a cancel, every handler that loads the loop finds it uninitialized. */
  lemma CancelledLoopIsUninitialized(env: Env, store: Store, ctx: Context, later: Context, accountCount: nat,
                                     idsBeforeOwner: seq<(nat, Pubkey)>, idsAfterOwner: seq<(nat, Pubkey)>)
    requires CancelTradeLoopEffect(env, store, ctx).Ok?
    requires accountCount >= 2 && |later.keys| >= accountCount && later.keys[1] == ctx.keys[1]
    requires later.keys[0] in later.signers
    requires ProgramsMatch(later.keys, idsBeforeOwner) && ProgramsMatch(later.keys, idsAfterOwner)
    ensures LoadLoop(env, CancelTradeLoopEffect(env, store, ctx).value, later, accountCount, idsBeforeOwner, idsAfterOwner)
            == Err(Failed(UninitializedAccount))
  {
  }
}
