# A verified model of the SWAPS multi-party NFT swap program

This project models the on-chain program of the SWAPS service in Dafny. The
program settles a cyclic barter among several wallets. Every participant
adds a *step* (from, to, the NFT mints it sends) to a shared *trade loop*
account. Each participant approves their own step. The steps are then
executed one at a time or all together, and every execution moves one unit
of each listed mint. A trade loop can be cancelled while nobody has
approved. A singleton *program configuration* account holds a pause flag, an
upgrade authority, an optional governance key and a version.

The model covers five parts of the program:

- **State** (`state.dfy`): the records `TradeStep`, `TradeLoop` and
  `ProgramConfig`, and the constants. It also holds `get_space`, the loop
  validity check `verify_loop` (a method proved equal to a ring predicate),
  `is_ready_for_execution` and `is_expired`.
- **Errors** (`errors.dfy`): the sixteen `SwapError` codes and their
  conversion to `ProgramError::Custom`.
- **Instruction codec** (`borsh.dfy`, `instruction.dfy`): two wire formats.
  - The Borsh-encoded versioned format starts with the marker byte 255.
  - The hand-written legacy format starts with a tag byte.
  - The decoder and both packers are imperative methods. Each is proved
    equal to a decoding or encoding function.
  - Round trips are proved for both formats.
- **Account checks** (`utils.dfy`): the owner checks, the NFT authenticity
  check in its three modes, and the associated-token-address check.
- **Processor** (`ledger.dfy`, `processor.dfy`): the nine instruction
  handlers, the pause gate and the entry point.
  - The accounts are a map from address to decoded account (`Ledger.Store`).
  - Each handler is specified by an *effect function*. The effect is either
    the new store or the failure the handler returns, checking the guards in
    the same order as the source.
  - Class `Processor.SwapProgram` owns the store. It implements each handler
    step by step, with the source's loops as `while`/`for` loops.
  - Each method is proved to return the effect's verdict and to leave the
    store the effect describes. On failure the store is unchanged, because
    the runtime discards a failed instruction's writes.

The properties are in three modules:

- `settlement.dfy`: transfers touch only token accounts, and each one moves
  exactly one unit.
- `trade_properties.dfy`: the outcome of every trade-loop handler, the pause
  gate, idempotent approval, and cancellation lock-in.
- `config_properties.dfy`: who may update or upgrade the configuration, and
  what each may change.

`invariants.dfy` proves a store invariant that every instruction preserves,
including instructions whose bytes fail to decode. A stored loop never holds
more steps than its capacity, never more than eleven, and never expires
before it was created.

Behaviour of the code a reader may not expect:

- `add_trade_step` appends whenever the index is at or past the current
  length, not only when it equals the length (`processor.rs:222-226`).
  - It may also overwrite a step that is already approved or executed with a
    fresh `Created` step. `TradeProperties.AddPlacesStep` states this.
  - So statuses are not monotone across instructions.
- A caller who owns no step gets `InvalidAccountOwner` from cancellation even
  when some step is approved. The `CancellationDenied` lock-in applies to
  participants only (`TradeProperties.CancelOutcome`).
- The legacy format writes the mint count as one byte. A step with more than
  255 mints does not round-trip through it (`Instruction.LegacyRoundTrip`
  states what comes back).
- `execute_trade_step` checks "approved" before "already executed", so its
  `StepAlreadyExecuted` branch can never be reached. The model keeps the
  branch in `Processor.ExecuteTradeStepEffect`;
  `TradeProperties.ExecuteStepNeedsApproval` and
  `TradeProperties.ExecuteStepNeverReportsExecutedStep` show it is dead.
- Sysvar accounts are checked only where the handler reads them, and only
  when it reads them. A wrong Clock or Rent account fails with the runtime's
  `InvalidArgument` (`Processor.HostFault`) at that point in the handler's
  order, for example after the expiry of a loaded loop is known but before
  it is checked.

Abstractions:

- Program ids, the configuration address and the associated-token-address
  derivation are parameters of `Processor.Env`.
- The clock and the signers are parameters of `Processor.Context`.
- The token program's transfer and the associated-token-account program's
  account creation are modelled as functions on the store
  (`Ledger.TransferOne`, `Ledger.CreateAssociated`).
- The BPF loader's upgrade is a boolean of the context.

Source paths below are relative to the repository root.

## Model

| member | source | states |
|---|---|---|
| Errors.Code | backend/programs/docker_deploy/full_contract/src/error.rs:6-70 | each error's number is its position in the declaration order, below 16 |
| Errors.IntoProgramError | backend/programs/docker_deploy/full_contract/src/error.rs:72-76 | the conversion yields `Custom(n)` whose `n` names the original error |
| Errors.CodeInjective | backend/programs/docker_deploy/full_contract/src/error.rs:72-76 | two errors convert to the same program error exactly when they are the same error |
| Errors.FirstAndLastCodes | backend/programs/docker_deploy/full_contract/src/error.rs:9-69 | `InvalidInstructionData` is code 0 and `CancellationDenied` is code 15 |
| Errors.CodesCoverRange | backend/programs/docker_deploy/full_contract/src/error.rs:6-70 | every code below 16 belongs to some error |
| Bytes.LittleEndian | backend/programs/swap/src/instruction.rs:307 | `to_le_bytes` gives exactly `n` bytes |
| Bytes.FromLittleEndian | backend/programs/swap/src/instruction.rs:197 | `from_le_bytes` of `n` bytes stays below 256^n |
| Bytes.LittleEndianRoundTrip | backend/programs/swap/src/instruction.rs:195-219 | reading back the little-endian bytes of a value below 256^n gives the value |
| Bytes.U32RoundTrip | backend/programs/swap/src/instruction.rs:219 | `u32::from_le_bytes(x.to_le_bytes()) == x` |
| Bytes.U64RoundTrip | backend/programs/swap/src/instruction.rs:197 | `u64::from_le_bytes(x.to_le_bytes()) == x` |
| Bytes.Flatten | backend/programs/swap/src/instruction.rs:315-317 | concatenated keys take 32 bytes each |
| Bytes.FlattenSlice | backend/programs/swap/src/instruction.rs:387-391 | key `i` sits at bytes `32i..32i+32` of the concatenation |
| Bytes.FlattenAppend | backend/programs/swap/src/instruction.rs:315-317 | appending a key appends its 32 bytes |
| Borsh.ParseKeys | backend/programs/swap/src/instruction.rs:143-147 | a successful read of `n` keys returns `n` keys |
| Borsh.U32Parses | backend/programs/swap/src/instruction.rs:143-147 | a Borsh `u32` reads back as itself, the rest untouched |
| Borsh.U64Parses | backend/programs/swap/src/instruction.rs:143-147 | a Borsh `u64` reads back as itself, the rest untouched |
| Borsh.OptionKeyParses | backend/programs/swap/src/instruction.rs:143-147 | a Borsh `Option<Pubkey>` reads back as itself |
| Borsh.OptionBoolParses | backend/programs/swap/src/instruction.rs:143-147 | a Borsh `Option<bool>` reads back as itself |
| Borsh.KeysParse | backend/programs/swap/src/instruction.rs:143-147 | `n` concatenated keys read back as those keys |
| Borsh.KeyVecParses | backend/programs/swap/src/instruction.rs:143-147 | a Borsh `Vec<Pubkey>` (u32 length, then keys) reads back as itself |
| Instruction.UnpackVersioned | backend/programs/swap/src/instruction.rs:171-182 | a versioned payload decodes or is rejected with `InvalidInstructionData`, never anything else |
| Instruction.InstructionParses | backend/programs/swap/src/instruction.rs:12-131 | every Borsh-encoded command parses back to itself, whatever follows |
| Instruction.ShortCommandParses | backend/programs/swap/src/instruction.rs:53-89 | the same for the four commands with at most one byte of payload |
| Instruction.InitializeParses | backend/programs/swap/src/instruction.rs:20-27 | the same for `InitializeTradeLoop` |
| Instruction.AddStepParses | backend/programs/swap/src/instruction.rs:38-45 | the same for `AddTradeStep` |
| Instruction.UpdateConfigParses | backend/programs/swap/src/instruction.rs:108-115 | the same for `UpdateProgramConfig` |
| Instruction.VersionedParses | backend/programs/swap/src/instruction.rs:143-147 | a Borsh `VersionedInstruction` parses back to itself |
| Instruction.ReadFlaggedKey | backend/programs/swap/src/instruction.rs:237-257 | a successful flag-then-key read moves the offset forward and stays within the input |
| Instruction.EncodeLegacy | backend/programs/swap/src/instruction.rs:299-377 | a legacy encoding is non-empty and starts with a tag from 0 to 8 |
| Instruction.EmptyInputRejected | backend/programs/swap/src/instruction.rs:155-158 | empty input is rejected with `InvalidInstructionData` |
| Instruction.UnknownTagRejected | backend/programs/swap/src/instruction.rs:274 | a legacy tag above 8 is rejected with `InvalidInstructionData` |
| Instruction.UnknownVersionRejected | backend/programs/swap/src/instruction.rs:135-140 | after the marker, a version byte above 1 is rejected |
| Instruction.VersionedRoundTrip | backend/programs/swap/src/instruction.rs:155-182 | marker byte plus the Borsh payload decodes to the packed command |
| Instruction.VersionedTrailingBytesRejected | backend/programs/swap/src/instruction.rs:171-182 | any byte after a complete versioned payload makes the input invalid |
| Instruction.PubkeyVectorShape | backend/programs/swap/src/instruction.rs:380-394 | the key vector fails exactly when shorter than `1 + 32*count`; otherwise it holds `count` keys taken 32 bytes at a time |
| Instruction.PubkeyVectorIgnoresTrailing | backend/programs/swap/src/instruction.rs:380-394 | bytes after the last key do not change the result |
| Instruction.PubkeyVectorOfKeys | backend/programs/swap/src/instruction.rs:314-317 | the legacy count byte and keys decode to the first `len mod 256` keys |
| Instruction.PubkeyVectorOfPrefix | backend/programs/swap/src/instruction.rs:380-394 | a count byte followed by at least that many keys decodes to exactly those keys |
| Instruction.FlaggedKeyReads | backend/programs/swap/src/instruction.rs:237-257 | a flag byte and optional key packed by the legacy packer read back as the same option |
| Instruction.FlaggedBoolReads | backend/programs/swap/src/instruction.rs:259-266 | a flag byte and optional boolean read back as the same option |
| Instruction.LegacyFixedRoundTrip | backend/programs/swap/src/instruction.rs:205-233 | tags 2 to 7 round-trip through the legacy format |
| Instruction.LegacyInitializeRoundTrip | backend/programs/swap/src/instruction.rs:194-204 | tag 0 round-trips through the legacy format |
| Instruction.LegacyAddStepRoundTrip | backend/programs/swap/src/instruction.rs:205-209 | tag 1 round-trips, with the mint list cut to `len mod 256` |
| Instruction.LegacyUpdateConfigRoundTrip | backend/programs/swap/src/instruction.rs:234-273 | tag 8 round-trips through the legacy format |
| Instruction.LegacyRoundTrip | backend/programs/swap/src/instruction.rs:155-168 | unpacking any legacy encoding gives the command back, up to the one-byte mint count |
| Instruction.LegacyRoundTripExact | backend/programs/swap/src/instruction.rs:299-377 | with at most 255 mints the legacy round trip is exact |
| Instruction.LegacyNeverVersioned | backend/programs/swap/src/instruction.rs:161-167 | a legacy encoding never takes the versioned path |
| Instruction.LegacyLengths | backend/programs/swap/src/instruction.rs:299-377 | the byte length of each legacy encoding |
| Instruction.UnpackPubkeyVector | backend/programs/swap/src/instruction.rs:380-394 | the loop that collects keys returns exactly `DecodePubkeyVector` |
| Instruction.UnpackUpdateProgramConfig | backend/programs/swap/src/instruction.rs:234-273 | the offset-walking decoder of tag 8 agrees with the legacy decoding, panics included |
| Instruction.UnpackLegacy | backend/programs/swap/src/instruction.rs:188-276 | the legacy decoder agrees with `DecodeLegacy` |
| Instruction.Unpack | backend/programs/swap/src/instruction.rs:155-168 | the entry decoder agrees with `Decode` |
| Instruction.AppendKeys | backend/programs/swap/src/instruction.rs:315-317 | the key loop appends the concatenated keys |
| Instruction.PackLegacy | backend/programs/swap/src/instruction.rs:299-377 | the legacy packer produces `EncodeLegacy` |
| Instruction.PushFlaggedKey | backend/programs/swap/src/instruction.rs:339-344 | a present key is pushed as 1 and the key, an absent one as 0 |
| Instruction.PushFlaggedBool | backend/programs/swap/src/instruction.rs:367-372 | a present flag is pushed as 1 and the value, an absent one as 0 |
| Instruction.PackVersioned | backend/programs/swap/src/instruction.rs:282-293 | the versioned packing starts with 255 and version 1 and decodes to the command |
| State.GetSpace | backend/programs/docker_deploy/swap/src/state.rs:73-94 | the size lies between 85 and 2252 bytes; 85 with no steps, 2252 at the caps |
| State.GetSpaceMonotone | backend/programs/docker_deploy/swap/src/state.rs:73-94 | more steps or mints never need less space |
| State.Succ | backend/programs/docker_deploy/swap/src/state.rs:102-112 | the next position on the ring is `(i + 1) mod n` |
| State.VerifyLoop | backend/programs/docker_deploy/swap/src/state.rs:97-122 | `verify_loop` returns true exactly for a closed ring with two distinct senders |
| State.LinkOfRing | backend/programs/docker_deploy/swap/src/state.rs:102-112 | a closed ring links each step to the next and the last to the first |
| State.ChainClosesRing | backend/programs/docker_deploy/swap/src/state.rs:102-112 | the closing check plus the adjacent-pair checks give a closed ring |
| State.SendersExtend | backend/programs/docker_deploy/swap/src/state.rs:114-118 | the sender set grows by one sender per step |
| State.TwoSendersIffTwoInSet | backend/programs/docker_deploy/swap/src/state.rs:114-121 | the set has at least two members exactly when two steps have different senders |
| State.SingleStepIsNotACycle | backend/programs/docker_deploy/swap/src/state.rs:120-121 | a one-step loop is rejected, even a self-send |
| State.OneSenderIsNotACycle | backend/programs/docker_deploy/swap/src/state.rs:120-121 | a loop with a single sender is rejected |
| State.ThreePartyRingIsValid | backend/programs/docker_deploy/swap/src/state.rs:97-122 | a to b, b to c, c to a is a valid loop |
| State.IsReadyForExecution | backend/programs/docker_deploy/swap/src/state.rs:125-127 | true exactly when every step is approved |
| State.ExpiryIsPermanent | backend/programs/docker_deploy/swap/src/state.rs:130-132 | once expired, a loop stays expired at every later time |
| Utils.VerifyAccountOwner | backend/programs/swap/src/utils.rs:49-54 | passes exactly when the owner is the program; otherwise `InvalidAccountOwner` |
| Utils.VerifyTokenAccountOwner | backend/programs/swap/src/utils.rs:57-62 | passes exactly when the owner is the token program |
| Utils.VerifySystemAccountOwner | backend/programs/swap/src/utils.rs:65-70 | passes exactly when the owner is the system program |
| Utils.VerifySysvarAccountOwner | backend/programs/swap/src/utils.rs:73-78 | passes exactly when the owner is the sysvar program |
| Utils.VerifyBasicMintProperties | backend/programs/swap/src/utils.rs:226-256 | succeeds exactly for a token-owned, decodable, initialized mint with 0 decimals; otherwise `InvalidMetadataAccount` |
| Utils.VerifyNftSupplyConstraints | backend/programs/swap/src/utils.rs:259-268 | passes exactly when the supply is 1 |
| Utils.VerifyMintAuthoritySafety | backend/programs/swap/src/utils.rs:271-290 | always passes: the authorities are only logged |
| Utils.VerifyMetaplexMetadata | backend/programs/swap/src/utils.rs:293-331 | passes exactly when the metadata account holds at least 32 bytes |
| Utils.VerifyNftMetadataWithMode | backend/programs/swap/src/utils.rs:195-223 | passes exactly when the mint is genuine for the mode; failures are `InvalidMetadataAccount` |
| Utils.VerifyNftMetadata | backend/programs/swap/src/utils.rs:187-192 | the default (Standard) check: a token-owned, initialized mint with 0 decimals and supply 1 |
| Utils.ModeMonotone | backend/programs/swap/src/utils.rs:195-223 | a mint that passes Strict passes Standard, and one that passes Standard passes Basic |
| Utils.StrictNeedsMetadata | backend/programs/swap/src/utils.rs:212-218 | Strict mode without a metadata account fails |
| Utils.AuthoritiesAreIrrelevant | backend/programs/swap/src/utils.rs:271-290 | changing the mint or freeze authority never changes the verdict |
| Utils.VerifyTokenAccountAddress | backend/programs/swap/src/utils.rs:334-353 | passes exactly at the associated token address of wallet and mint; otherwise `InvalidAccountData` |
| Ledger.OnlyTouchesTransitive | backend/programs/swap/src/utils.rs:120-144 | two steps that change only token-program accounts make one such change |
| Ledger.TransferOne | backend/programs/swap/src/utils.rs:120-144 | a transfer changes only the two token accounts, conserves their total, and moves exactly one unit between distinct accounts |
| Ledger.CreateAssociated | backend/programs/swap/src/utils.rs:81-117 | creation succeeds exactly at the derived address and leaves an empty token account of the wallet there, nothing else changed |
| Processor.LoadLoop | backend/programs/docker_deploy/full_contract/src/processor.rs:126-152 | a loaded loop had enough accounts and a signer, is program-owned at the second account, and is initialized |
| Processor.MoveAssets | backend/programs/docker_deploy/full_contract/src/processor.rs:409-473 | each asset consumes three accounts |
| Processor.AllExecuted | backend/programs/docker_deploy/full_contract/src/processor.rs:563-651 | every step is marked executed and nothing else about it changes |
| Processor.FirstStepFrom | backend/programs/docker_deploy/full_contract/src/processor.rs:692 | the first position whose sender is the caller, or none when no step is theirs |
| Processor.AnyApproved | backend/programs/docker_deploy/full_contract/src/processor.rs:710-711 | true exactly when some step is approved |
| Processor.SwapProgram.constructor | backend/programs/docker_deploy/full_contract/src/processor.rs:24-26 | the program starts over the given accounts |
| Processor.SwapProgram.CheckProgramNotPaused | backend/programs/docker_deploy/full_contract/src/processor.rs:1019-1067 | the scan returns `PauseGate`: pass without a counted configuration, fail when it is paused or undecodable |
| Processor.SwapProgram.ProcessInitializeTradeLoop | backend/programs/docker_deploy/full_contract/src/processor.rs:28-113 | verdict and new store are those of `InitializeTradeLoopEffect` |
| Processor.SwapProgram.FindRepeatedMint | backend/programs/docker_deploy/full_contract/src/processor.rs:164-171 | the set-insertion loop reports a repeat exactly when two positions hold the same mint |
| Processor.SwapProgram.VerifySenderHoldsAssets | backend/programs/docker_deploy/full_contract/src/processor.rs:173-211 | the per-asset loop returns `CheckOwnedAssets` |
| Processor.SwapProgram.ProcessAddTradeStep | backend/programs/docker_deploy/full_contract/src/processor.rs:116-244 | verdict and new store are those of `AddTradeStepEffect` |
| Processor.SwapProgram.ProcessApproveTradeStep | backend/programs/docker_deploy/full_contract/src/processor.rs:247-318 | verdict and new store are those of `ApproveTradeStepEffect` |
| Processor.SwapProgram.TransferStepAssets | backend/programs/docker_deploy/full_contract/src/processor.rs:409-473 | the per-asset transfer loop returns `MoveAssets` |
| Processor.SwapProgram.ProcessExecuteTradeStep | backend/programs/docker_deploy/full_contract/src/processor.rs:321-484 | verdict and new store are those of `ExecuteTradeStepEffect` |
| Processor.SwapProgram.SettleAllSteps | backend/programs/docker_deploy/full_contract/src/processor.rs:563-651 | the step loop returns `SettleSteps` and, on success, every step marked executed |
| Processor.SwapProgram.ProcessExecuteFullTradeLoop | backend/programs/docker_deploy/full_contract/src/processor.rs:487-659 | verdict and new store are those of `ExecuteFullTradeLoopEffect` |
| Processor.SwapProgram.ProcessCancelTradeLoop | backend/programs/docker_deploy/full_contract/src/processor.rs:662-725 | verdict and new store are those of `CancelTradeLoopEffect` |
| Processor.SwapProgram.ProcessUpgradeProgram | backend/programs/docker_deploy/full_contract/src/processor.rs:728-822 | verdict and new store are those of `UpgradeProgramEffect` |
| Processor.SwapProgram.ProcessInitializeProgramConfig | backend/programs/docker_deploy/full_contract/src/processor.rs:825-902 | verdict and new store are those of `InitializeProgramConfigEffect` |
| Processor.SwapProgram.ProcessUpdateProgramConfig | backend/programs/docker_deploy/full_contract/src/processor.rs:905-978 | verdict and new store are those of `UpdateProgramConfigEffect` |
| Processor.SwapProgram.ProcessInstruction | backend/programs/docker_deploy/full_contract/src/processor.rs:982-1016 | each command runs its own handler |
| Processor.SwapProgram.ProcessEntrypoint | backend/programs/docker_deploy/swap/src/lib.rs:27-39 | decode, then dispatch; a rejected decode fails with its error and a decoder panic aborts |
| Processor.RepeatInPrefix | backend/programs/docker_deploy/full_contract/src/processor.rs:164-171 | a repeat within a prefix is a repeat of the whole list |
| Processor.NoRepeatExtends | backend/programs/docker_deploy/full_contract/src/processor.rs:164-171 | a new mint not yet in the set keeps the prefix repeat-free |
| Settlement.MoveAssetOnlyTouchesTokenAccounts | backend/programs/docker_deploy/full_contract/src/processor.rs:409-473 | moving one asset changes token-program accounts only |
| Settlement.MoveAssetsOnlyTouchTokenAccounts | backend/programs/docker_deploy/full_contract/src/processor.rs:409-473 | moving all of a step's assets changes token-program accounts only |
| Settlement.SettleStepsOnlyTouchTokenAccounts | backend/programs/docker_deploy/full_contract/src/processor.rs:563-651 | settling a whole loop changes token-program accounts only |
| Settlement.MoveAssetsNeverReportExecutedStep | backend/programs/docker_deploy/full_contract/src/processor.rs:583-647 | the asset checks and transfers never fail with `StepAlreadyExecuted` |
| Settlement.SettleStepsNeverReportExecutedStep | backend/programs/docker_deploy/full_contract/src/processor.rs:563-567 | settling steps none of which is executed never reports `StepAlreadyExecuted` |
| Settlement.MoveAssetMovesOneUnit | backend/programs/docker_deploy/full_contract/src/processor.rs:430-472 | one unit leaves the sender's account and one arrives at the recipient's, which is created with a zero balance when missing |
| TradeProperties.PauseGateOutcome | backend/programs/docker_deploy/full_contract/src/processor.rs:1019-1067 | the gate passes without the configuration, or when it is foreign-owned or empty; it fails with `InvalidInstructionData` when paused and `InvalidAccountData` when undecodable |
| TradeProperties.PausedBlocksTradeCommands | backend/programs/docker_deploy/full_contract/src/processor.rs:36 | while the configuration passed in says paused, every trade-loop command fails with `InvalidInstructionData` |
| TradeProperties.ConfigCommandsIgnorePause | backend/programs/docker_deploy/full_contract/src/processor.rs:728-978 | the three configuration commands succeed or fail the same way whatever the pause flag |
| TradeProperties.InitializeOutcome | backend/programs/docker_deploy/full_contract/src/processor.rs:39-95 | zero steps gives `InvalidInstructionData`, above eleven gives `TooManyParticipants`, a timeout above 30 days gives `InvalidInstructionData`, a non-empty account `InvalidAccountData`; then a missing payer signature, a wrong Rent account (`InvalidArgument`) and an expiry past 2^64-1 (`InvalidInstructionData`) fail in that order |
| TradeProperties.InitializeCreatesLoop | backend/programs/docker_deploy/full_contract/src/processor.rs:57-112 | success exactly when accounts, emptiness, signature, the Rent account and no overflow hold; the loop is initialized, empty, with capacity `stepCount`, expiring at now plus the timeout, and nothing else changes |
| TradeProperties.AddRejectsBadArguments | backend/programs/docker_deploy/full_contract/src/processor.rs:154-171 | an index at or past capacity, no mints, or a repeated mint gives `InvalidInstructionData` |
| TradeProperties.AddPlacesStep | backend/programs/docker_deploy/full_contract/src/processor.rs:213-239 | the step is appended at or past the end, otherwise it overwrites the step at the index whatever its status; other steps stay, length stays within capacity, and a full loop is a valid cycle |
| TradeProperties.AddChecksCycleOnlyWhenFull | backend/programs/docker_deploy/full_contract/src/processor.rs:228-236 | with valid arguments and assets, the add succeeds exactly when it does not fill the loop or the filled loop is a valid cycle; a filling add with an invalid cycle gets `TradeLoopVerificationFailed` |
| TradeProperties.ApproveOutcome | backend/programs/docker_deploy/full_contract/src/processor.rs:278-312 | Clock account (`InvalidArgument`), expiry, index and sender checks in order; approved stays, executed is refused, created becomes approved and nothing else changes |
| TradeProperties.ApproveIdempotent | backend/programs/docker_deploy/full_contract/src/processor.rs:297-301 | approving twice leaves the store as approving once |
| TradeProperties.ExecuteStepNeedsApproval | backend/programs/docker_deploy/full_contract/src/processor.rs:386-389 | a step that is not approved, executed included, fails with `MissingApprovals` |
| TradeProperties.ExecuteStepChecksParticipants | backend/programs/docker_deploy/full_contract/src/processor.rs:396-406 | an approved step executed with the wrong sender or recipient gets `InvalidAccountData`; with both right, a wrong Rent account gets `InvalidArgument` |
| TradeProperties.ExecuteStepNeverReportsExecutedStep | backend/programs/docker_deploy/full_contract/src/processor.rs:386-394 | executing one step never fails with `StepAlreadyExecuted` |
| TradeProperties.ExecuteStepMarksOnlyThatStep | backend/programs/docker_deploy/full_contract/src/processor.rs:373-479 | success needs an approved step whose sender and recipient were passed, and the Rent account; only that step becomes executed, and besides the loop only token accounts change |
| TradeProperties.FullGuardOrder | backend/programs/docker_deploy/full_contract/src/processor.rs:537-560 | Clock account, then expiry, then cycle validity, then approvals, then the participant limit, then the Rent account, each with its error |
| TradeProperties.FullSettlesApprovedCycle | backend/programs/docker_deploy/full_contract/src/processor.rs:537-654 | success needs the Clock and Rent accounts and an unexpired, valid, fully approved loop of at most eleven steps; all steps become executed and besides the loop only token accounts change |
| TradeProperties.FullNeverReportsExecutedStep | backend/programs/docker_deploy/full_contract/src/processor.rs:563-567 | full execution never fails with `StepAlreadyExecuted` |
| TradeProperties.CancelOutcome | backend/programs/docker_deploy/full_contract/src/processor.rs:692-720 | a non-participant gets `InvalidAccountOwner`; a participant whose first step is not created, or any approved step, gives `CancellationDenied`; otherwise the loop is erased |
| TradeProperties.CancelIgnoresClock | backend/programs/docker_deploy/full_contract/src/processor.rs:662-725 | cancellation gives the same outcome at every time |
| TradeProperties.CancelledLoopIsUninitialized | backend/programs/docker_deploy/full_contract/src/processor.rs:720 | after a cancel, every handler that loads the loop fails with `UninitializedAccount` |
| ConfigProperties.InitializeConfigOutcome | backend/programs/docker_deploy/full_contract/src/processor.rs:839-897 | success exactly with signer, system program, the derived address, an empty account and the Rent account; the signer becomes authority at version 1, not paused |
| ConfigProperties.UpdateConfigOutcome | backend/programs/docker_deploy/full_contract/src/processor.rs:943-973 | success exactly for the authority or governance key; only supplied fields change, the version is kept, governance is never cleared |
| ConfigProperties.UpgradeOutcome | backend/programs/docker_deploy/full_contract/src/processor.rs:770-817 | an unauthorized signer gets `UpgradeAuthorityMismatch` and a version not above the current one `InvalidProgramVersion`; success strictly raises the version and changes nothing else |
| Invariants.WriteKeepsInvariant | backend/programs/docker_deploy/full_contract/src/processor.rs:108 | writing a well-formed record keeps the store invariant |
| Invariants.TokenChangesKeepInvariant | backend/programs/swap/src/utils.rs:120-144 | token-only changes keep the store invariant |
| Invariants.LoadedLoopWellFormed | backend/programs/docker_deploy/full_contract/src/processor.rs:147-152 | a loop loaded from an invariant store is well formed |
| Invariants.InitializePreservesInvariant | backend/programs/docker_deploy/full_contract/src/processor.rs:28-113 | initialization keeps the invariant |
| Invariants.AddPreservesInvariant | backend/programs/docker_deploy/full_contract/src/processor.rs:116-244 | adding a step keeps every loop within its capacity |
| Invariants.ApprovePreservesInvariant | backend/programs/docker_deploy/full_contract/src/processor.rs:247-318 | approval keeps the invariant |
| Invariants.ExecuteStepPreservesInvariant | backend/programs/docker_deploy/full_contract/src/processor.rs:321-484 | executing a step keeps the invariant |
| Invariants.FullPreservesInvariant | backend/programs/docker_deploy/full_contract/src/processor.rs:487-659 | full execution keeps the invariant |
| Invariants.CancelPreservesInvariant | backend/programs/docker_deploy/full_contract/src/processor.rs:662-725 | cancellation keeps the invariant |
| Invariants.ConfigCommandsPreserveInvariant | backend/programs/docker_deploy/full_contract/src/processor.rs:728-978 | the configuration commands keep the version at 1 or more |
| Invariants.InstructionPreservesInvariant | backend/programs/docker_deploy/full_contract/src/processor.rs:982-1016 | every command, failing or not, keeps the invariant |
| Invariants.EntrypointPreservesInvariant | backend/programs/docker_deploy/swap/src/lib.rs:27-39 | any instruction bytes, undecodable ones included, keep the invariant |
| Invariants.VersionedBytesRunTheirHandler | backend/programs/swap/src/instruction.rs:282-293 | bytes from the versioned packer run exactly the packed command's handler |
| Invariants.LegacyBytesRunTheirHandler | backend/programs/swap/src/instruction.rs:299-377 | bytes from the legacy packer run the handler of the command as the legacy format keeps it |

## Left out

- Lamports, rent and the rent-exemption check are left out. Of a `Rent` or `Clock` sysvar read, only the check that the account is that sysvar is modelled; its contents are not. The system program's `create_account` is treated as always succeeding. The loop's allocated size is `State.GetSpace`, but it is never compared against an account length.
- Account bytes are left out: records are stored as decoded values, so two Borsh effects are not captured.
  - `try_from_slice` on an account padded beyond the record fails with "not all bytes read" in the source. The model decodes it.
  - A reloaded `Vec` has capacity equal to its length, but the model keeps the capacity given at initialization as a field. In the source, adding to a reloaded loop therefore always fails the capacity check.
  - A cancelled, zero-filled loop account is modelled as the uninitialized record. The real bytes would decode with a Borsh error instead.
- Decoder panics: an out-of-range slice in the legacy decoder panics in the source. The model reports this as the `Aborted` decoding and the `Panicked` host fault; it does not model the process abort itself.
- The clock is the `u64` value the program reads (`unix_timestamp as u64`); negative timestamps are not modelled.
- Program-derived and associated-token addresses are abstract parameters (`configKey`, `associatedAddress`); the hashing is left out, and so are `get_trade_loop_address` and `get_trade_loop_address_legacy`, which the handlers never call.
- `create_and_initialize_account` is folded into the initialization handler as a write of the new record.
- The token program's frozen and delegated account states are left out, along with its fee and rent rules. A transfer fails only for the reasons `Ledger.TransferOne` lists.
- The BPF loader's upgrade instruction is reduced to the context flag `loaderAccepts`. The program buffer and the program-data account are not modelled.
- `verify_metaplex_metadata` builds seeds from a placeholder program id but never uses them; the model keeps only its two length checks.
- Log messages (`msg!`) are left out.
- The stub programs under `simple_swaps`, `final_clean_deploy` and `minimal_swaps_contract.rs` are not part of this model.
- Concurrency between instructions is left out: the runtime runs each instruction atomically, and the model runs them one at a time.
