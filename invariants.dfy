/**
 * A store invariant every instruction preserves: each initialized trade loop
 * the program owns stays within its capacity, which is at most eleven, and
 * does not expire before it was created; each initialized configuration has
 * a version of at least 1.
 */
module Invariants {
  import opened Wrappers
  import opened Bytes
  import opened Errors
  import opened State
  import opened Utils
  import opened Instruction
  import opened Ledger
  import opened Processor
  import opened Settlement

  ghost predicate RecordWellFormed(data: AccountData)
  {
    && (data.LoopData? && data.loop.initialized ==>
          |data.loop.steps| <= data.loop.capacity <= MAX_PARTICIPANTS_PER_TRANSACTION &&
          data.loop.createdAt <= data.loop.expiresAt)
    && (data.ConfigData? && data.config.initialized ==> data.config.version >= PROGRAM_VERSION)
  }

  ghost predicate StoreInvariant(env: Env, store: Store)
  {
    forall k :: k in store && store[k].owner == env.programId ==> RecordWellFormed(store[k].data)
  }

  /** The program is not the token program (the runtime gives every program its own id). */
  predicate DistinctPrograms(env: Env)
  {
    env.programId != env.ids.token
  }

  lemma WriteKeepsInvariant(env: Env, store: Store, key: Pubkey, account: Account)
    requires StoreInvariant(env, store)
    requires account.owner == env.programId ==> RecordWellFormed(account.data)
    ensures StoreInvariant(env, store[key := account])
  {
  }

  lemma TokenChangesKeepInvariant(env: Env, before: Store, after: Store)
    requires DistinctPrograms(env) && StoreInvariant(env, before)
    requires OnlyTouches(before, after, env.ids.token, {})
    ensures StoreInvariant(env, after)
  {
    forall k | k in after && after[k].owner == env.programId
      ensures RecordWellFormed(after[k].data)
    {
      assert k in before && before[k] == after[k];
    }
  }

  lemma LoadedLoopWellFormed(env: Env, store: Store, ctx: Context, accountCount: nat,
                             idsBeforeOwner: seq<(nat, Pubkey)>, idsAfterOwner: seq<(nat, Pubkey)>)
    requires accountCount >= 2
    requires StoreInvariant(env, store)
    requires LoadLoop(env, store, ctx, accountCount, idsBeforeOwner, idsAfterOwner).Ok?
    ensures RecordWellFormed(LoopData(LoadLoop(env, store, ctx, accountCount, idsBeforeOwner, idsAfterOwner).value))
  {
  }

  lemma InitializePreservesInvariant(env: Env, store: Store, ctx: Context, tradeId: Bytes32, stepCount: Byte, timeoutSeconds: U64)
    requires StoreInvariant(env, store)
    ensures StoreInvariant(env, Commit(store, InitializeTradeLoopEffect(env, store, ctx, tradeId, stepCount, timeoutSeconds)))
  {
    var e := InitializeTradeLoopEffect(env, store, ctx, tradeId, stepCount, timeoutSeconds);
    if e.Ok? {
      var record := TradeLoop(true, tradeId, ctx.now, ctx.now + timeoutSeconds, [], stepCount, ctx.keys[0]);
      WriteKeepsInvariant(env, store, ctx.keys[1], Account(env.programId, LoopData(record)));
    }
  }

  lemma AddPreservesInvariant(env: Env, store: Store, ctx: Context, stepIndex: Byte, to: Pubkey, nftMints: seq<Pubkey>)
    requires StoreInvariant(env, store)
    ensures StoreInvariant(env, Commit(store, AddTradeStepEffect(env, store, ctx, stepIndex, to, nftMints)))
  {
    var e := AddTradeStepEffect(env, store, ctx, stepIndex, to, nftMints);
    if e.Ok? {
      var record := LoadLoop(env, store, ctx, 3, [(2, env.ids.token)], []).value;
      LoadedLoopWellFormed(env, store, ctx, 3, [(2, env.ids.token)], []);
      var steps := PlaceStep(record.steps, stepIndex, TradeStep(ctx.keys[0], to, nftMints, Created));
      assert |steps| <= record.capacity;
      WriteKeepsInvariant(env, store, ctx.keys[1], Account(env.programId, LoopData(record.(steps := steps))));
    }
  }

  lemma ApprovePreservesInvariant(env: Env, store: Store, ctx: Context, stepIndex: Byte)
    requires StoreInvariant(env, store)
    ensures StoreInvariant(env, Commit(store, ApproveTradeStepEffect(env, store, ctx, stepIndex)))
  {
    var e := ApproveTradeStepEffect(env, store, ctx, stepIndex);
    if e.Ok? {
      var record := LoadLoop(env, store, ctx, 3, [], []).value;
      LoadedLoopWellFormed(env, store, ctx, 3, [], []);
      if record.steps[stepIndex].status != Approved {
        var steps := record.steps[stepIndex := record.steps[stepIndex].(status := Approved)];
        WriteKeepsInvariant(env, store, ctx.keys[1], Account(env.programId, LoopData(record.(steps := steps))));
      }
    }
  }

  lemma ExecuteStepPreservesInvariant(env: Env, store: Store, ctx: Context, stepIndex: Byte)
    requires DistinctPrograms(env) && StoreInvariant(env, store)
    ensures StoreInvariant(env, Commit(store, ExecuteTradeStepEffect(env, store, ctx, stepIndex)))
  {
    var e := ExecuteTradeStepEffect(env, store, ctx, stepIndex);
    if e.Ok? {
      var ids := ExecuteStepProgramIds(env);
      var record := LoadLoop(env, store, ctx, 8, [], ids).value;
      LoadedLoopWellFormed(env, store, ctx, 8, [], ids);
      var step := record.steps[stepIndex];
      var moved := MoveAssets(env, store, ctx, 8, ctx.keys[2], ctx.keys[3], step.nftMints).value;
      MoveAssetsOnlyTouchTokenAccounts(env, store, ctx, 8, ctx.keys[2], ctx.keys[3], step.nftMints);
      TokenChangesKeepInvariant(env, store, moved.0);
      var steps := record.steps[stepIndex := step.(status := Executed)];
      WriteKeepsInvariant(env, moved.0, ctx.keys[1], Account(env.programId, LoopData(record.(steps := steps))));
    }
  }

  lemma FullPreservesInvariant(env: Env, store: Store, ctx: Context)
    requires DistinctPrograms(env) && StoreInvariant(env, store)
    ensures StoreInvariant(env, Commit(store, ExecuteFullTradeLoopEffect(env, store, ctx)))
  {
    var e := ExecuteFullTradeLoopEffect(env, store, ctx);
    if e.Ok? {
      var ids := ExecuteLoopProgramIds(env);
      var record := LoadLoop(env, store, ctx, 7, [], ids).value;
      LoadedLoopWellFormed(env, store, ctx, 7, [], ids);
      var settled := SettleSteps(env, store, ctx, 7, record.steps).value;
      SettleStepsOnlyTouchTokenAccounts(env, store, ctx, 7, record.steps);
      TokenChangesKeepInvariant(env, store, settled.0);
      var written := record.(steps := AllExecuted(record.steps));
      WriteKeepsInvariant(env, settled.0, ctx.keys[1], Account(env.programId, LoopData(written)));
    }
  }

  lemma CancelPreservesInvariant(env: Env, store: Store, ctx: Context)
    requires StoreInvariant(env, store)
    ensures StoreInvariant(env, Commit(store, CancelTradeLoopEffect(env, store, ctx)))
  {
    var e := CancelTradeLoopEffect(env, store, ctx);
    if e.Ok? {
      WriteKeepsInvariant(env, store, ctx.keys[1], Account(env.programId, LoopData(ZeroedLoop)));
    }
  }

  lemma ConfigCommandsPreserveInvariant(env: Env, store: Store, ctx: Context, c: SwapInstruction)
    requires c.UpgradeProgram? || c.InitializeProgramConfig? || c.UpdateProgramConfig?
    requires StoreInvariant(env, store)
    ensures StoreInvariant(env, Commit(store, InstructionEffect(env, store, ctx, c)))
  {
    var e := InstructionEffect(env, store, ctx, c);
    if e.Ok? {
      match c
      case UpgradeProgram(v) =>
        var config := AccountAt(store, ctx.keys[7], env.ids).data.config;
        assert ctx.keys[7] in store;
        WriteKeepsInvariant(env, store, ctx.keys[7], Account(env.programId, ConfigData(config.(version := v))));
      case InitializeProgramConfig(g) =>
        var config := ProgramConfig(true, PROGRAM_VERSION, ctx.keys[0], g, false);
        WriteKeepsInvariant(env, store, ctx.keys[1], Account(env.programId, ConfigData(config)));
      case UpdateProgramConfig(a, g, p) =>
        var config := AccountAt(store, ctx.keys[1], env.ids).data.config;
        assert ctx.keys[1] in store;
        WriteKeepsInvariant(env, store, ctx.keys[1], Account(env.programId, ConfigData(ApplyConfigUpdate(config, a, g, p))));
    }
  }

  /** Every instruction, whether it succeeds or fails, leaves the invariant in place. */
  lemma InstructionPreservesInvariant(env: Env, store: Store, ctx: Context, c: SwapInstruction)
    requires DistinctPrograms(env) && StoreInvariant(env, store)
    ensures StoreInvariant(env, Commit(store, InstructionEffect(env, store, ctx, c)))
  {
    match c
    case InitializeTradeLoop(id, n, t) => InitializePreservesInvariant(env, store, ctx, id, n, t);
    case AddTradeStep(i, to, mints) => AddPreservesInvariant(env, store, ctx, i, to, mints);
    case ApproveTradeStep(i) => ApprovePreservesInvariant(env, store, ctx, i);
    case ExecuteTradeStep(i) => ExecuteStepPreservesInvariant(env, store, ctx, i);
    case ExecuteFullTradeLoop => FullPreservesInvariant(env, store, ctx);
    case CancelTradeLoop => CancelPreservesInvariant(env, store, ctx);
    case UpgradeProgram(_) => ConfigCommandsPreserveInvariant(env, store, ctx, c);
    case InitializeProgramConfig(_) => ConfigCommandsPreserveInvariant(env, store, ctx, c);
    case UpdateProgramConfig(_, _, _) => ConfigCommandsPreserveInvariant(env, store, ctx, c);
  }

  /** The same holds for raw instruction bytes, including those the decoder rejects. */
  lemma EntrypointPreservesInvariant(env: Env, store: Store, ctx: Context, data: seq<Byte>)
    requires DistinctPrograms(env) && StoreInvariant(env, store)
    ensures StoreInvariant(env, Commit(store, EntrypointEffect(env, store, ctx, data)))
  {
    match Decode(data)
    case Decoded(c) => InstructionPreservesInvariant(env, store, ctx, c);
    case Rejected(_) =>
    case Aborted =>
  }

  // ---------------------------------------------------------------------
  // The entry point and the two wire formats
  // ---------------------------------------------------------------------

  /** Bytes packed in the versioned format run the handler of the packed command. */
  lemma VersionedBytesRunTheirHandler(env: Env, store: Store, ctx: Context, c: SwapInstruction)
    requires Encodable(c)
    ensures EntrypointEffect(env, store, ctx, [255] + BorshVersioned(VersionedInstruction(V1, c)))
            == InstructionEffect(env, store, ctx, c)
  {
    VersionedRoundTrip(VersionedInstruction(V1, c));
  }

  /** Bytes packed in the legacy format run the handler of the command as the legacy format keeps it. */
  lemma LegacyBytesRunTheirHandler(env: Env, store: Store, ctx: Context, c: SwapInstruction)
    ensures EntrypointEffect(env, store, ctx, EncodeLegacy(c)) == InstructionEffect(env, store, ctx, LegacyView(c))
  {
    LegacyRoundTrip(c);
  }
}
