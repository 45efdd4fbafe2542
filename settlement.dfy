/**
 * What the asset checks and transfers of the execution handlers can and
 * cannot do: they change only token-program accounts, they never report
 * that a step was already executed, and a successful transfer moves exactly
 * one unit from the sender's account to the recipient's.
 */
module Settlement {
  import opened Wrappers
  import opened Bytes
  import opened Errors
  import opened State
  import opened Utils
  import opened Ledger
  import opened Processor

  /** Moving one asset changes token-program accounts only. */
  lemma MoveAssetOnlyTouchesTokenAccounts(env: Env, store: Store, ctx: Context, pos: nat,
                                          sender: Pubkey, recipient: Pubkey, mint: Pubkey)
    requires MoveAsset(env, store, ctx, pos, sender, recipient, mint).Ok?
    ensures OnlyTouches(store, MoveAsset(env, store, ctx, pos, sender, recipient, mint).value, env.ids.token, {})
  {
    var destinationKey := ctx.keys[pos + 2];
    var mintKey := ctx.keys[pos];
    var created := if !AccountAt(store, destinationKey, env.ids).data.Empty? then store
                   else CreateAssociated(store, env.ids, destinationKey, recipient, mintKey, env.associatedAddress).value;
    assert OnlyTouches(store, created, env.ids.token, {});
    var moved := TransferOne(created, env.ids, ctx.keys[pos + 1], destinationKey, sender, ctx.signers);
    assert moved.Some? && MoveAsset(env, store, ctx, pos, sender, recipient, mint).value == moved.value;
    OnlyTouchesTransitive(store, created, moved.value, env.ids.token, {});
  }

  /** Moving all of a step's assets changes token-program accounts only. */
  lemma {:induction false} MoveAssetsOnlyTouchTokenAccounts(env: Env, store: Store, ctx: Context, pos: nat,
                                                            sender: Pubkey, recipient: Pubkey, mints: seq<Pubkey>)
    requires MoveAssets(env, store, ctx, pos, sender, recipient, mints).Ok?
    ensures OnlyTouches(store, MoveAssets(env, store, ctx, pos, sender, recipient, mints).value.0, env.ids.token, {})
    decreases |mints|
  {
    if |mints| > 0 {
      var moved := MoveAsset(env, store, ctx, pos, sender, recipient, mints[0]).value;
      MoveAssetOnlyTouchesTokenAccounts(env, store, ctx, pos, sender, recipient, mints[0]);
      MoveAssetsOnlyTouchTokenAccounts(env, moved, ctx, pos + 3, sender, recipient, mints[1..]);
      OnlyTouchesTransitive(store, moved, MoveAssets(env, store, ctx, pos, sender, recipient, mints).value.0,
                            env.ids.token, {});
    }
  }

  /** Settling a whole loop changes token-program accounts only. */
  lemma {:induction false} SettleStepsOnlyTouchTokenAccounts(env: Env, store: Store, ctx: Context, pos: nat,
                                                             steps: seq<TradeStep>)
    requires SettleSteps(env, store, ctx, pos, steps).Ok?
    ensures OnlyTouches(store, SettleSteps(env, store, ctx, pos, steps).value.0, env.ids.token, {})
    decreases |steps|
  {
    if |steps| > 0 {
      var step := steps[0];
      var moved := MoveAssets(env, store, ctx, pos + 2, ctx.keys[pos], ctx.keys[pos + 1], step.nftMints).value;
      MoveAssetsOnlyTouchTokenAccounts(env, store, ctx, pos + 2, ctx.keys[pos], ctx.keys[pos + 1], step.nftMints);
      SettleStepsOnlyTouchTokenAccounts(env, moved.0, ctx, moved.1, steps[1..]);
      OnlyTouchesTransitive(store, moved.0, SettleSteps(env, store, ctx, pos, steps).value.0, env.ids.token, {});
    }
  }

  /** The per-asset checks and the transfer never report an executed step. */
  lemma {:induction false} MoveAssetsNeverReportExecutedStep(env: Env, store: Store, ctx: Context, pos: nat,
                                                             sender: Pubkey, recipient: Pubkey, mints: seq<Pubkey>)
    ensures MoveAssets(env, store, ctx, pos, sender, recipient, mints) != Err(Failed(StepAlreadyExecuted))
    decreases |mints|
  {
    if |mints| > 0 {
      var first := MoveAsset(env, store, ctx, pos, sender, recipient, mints[0]);
      if first.Ok? {
        MoveAssetsNeverReportExecutedStep(env, first.value, ctx, pos + 3, sender, recipient, mints[1..]);
      }
    }
  }

  /** Settling steps none of which is executed never reports an executed step. */
  lemma {:induction false} SettleStepsNeverReportExecutedStep(env: Env, store: Store, ctx: Context, pos: nat,
                                                              steps: seq<TradeStep>)
    requires forall i :: 0 <= i < |steps| ==> steps[i].status != Executed
    ensures SettleSteps(env, store, ctx, pos, steps) != Err(Failed(StepAlreadyExecuted))
    decreases |steps|
  {
    if |steps| > 0 && |ctx.keys| >= pos + 2 {
      var step := steps[0];
      MoveAssetsNeverReportExecutedStep(env, store, ctx, pos + 2, ctx.keys[pos], ctx.keys[pos + 1], step.nftMints);
      var moved := MoveAssets(env, store, ctx, pos + 2, ctx.keys[pos], ctx.keys[pos + 1], step.nftMints);
      if moved.Ok? {
        SettleStepsNeverReportExecutedStep(env, moved.value.0, ctx, moved.value.1, steps[1..]);
      }
    }
  }

  /**
   * A successful move takes one unit from the sender's token account and
   * adds one to the recipient's, which is created with a zero balance when
   * it does not exist yet.
   */
  lemma MoveAssetMovesOneUnit(env: Env, store: Store, ctx: Context, pos: nat,
                              sender: Pubkey, recipient: Pubkey, mint: Pubkey)
    requires |ctx.keys| >= pos + 3 && ctx.keys[pos + 1] != ctx.keys[pos + 2]
    requires MoveAsset(env, store, ctx, pos, sender, recipient, mint).Ok?
    ensures var after := MoveAsset(env, store, ctx, pos, sender, recipient, mint).value;
            && Balance(after, ctx.keys[pos + 1]) + 1 == Balance(store, ctx.keys[pos + 1])
            && Balance(after, ctx.keys[pos + 2]) == Balance(store, ctx.keys[pos + 2]) + 1
  {
    var source, destination := ctx.keys[pos + 1], ctx.keys[pos + 2];
    if AccountAt(store, destination, env.ids).data.Empty? {
      var created := CreateAssociated(store, env.ids, destination, recipient, ctx.keys[pos], env.associatedAddress).value;
      assert Balance(created, source) == Balance(store, source);
      assert Balance(store, destination) == 0;
      assert Balance(created, destination) == 0;
    }
  }
}
