/**
 * The instruction set and its two wire formats, selected by the first
 * byte: the legacy fixed-offset format (tags 0..8), and the versioned
 * format (byte 255, then a Borsh-encoded `VersionedInstruction`).
 *
 * Functions named `Encode*`/`Decode*` specify the bytes; the methods
 * `Pack*`/`Unpack*` build or read them step by step as the program does and
 * are proved equal to those functions.
 */
module Instruction {
  import opened Wrappers
  import opened Bytes
  import opened Errors
  import opened Borsh

  /** The nine commands, in declaration order (which is their Borsh discriminant). */
  datatype SwapInstruction =
    | InitializeTradeLoop(tradeId: Bytes32, stepCount: Byte, timeoutSeconds: U64)
    | AddTradeStep(stepIndex: Byte, to: Pubkey, nftMints: seq<Pubkey>)
    | ApproveTradeStep(stepIndex: Byte)
    | ExecuteTradeStep(stepIndex: Byte)
    | ExecuteFullTradeLoop
    | CancelTradeLoop
    | InitializeProgramConfig(governance: Option<Pubkey>)
    | UpdateProgramConfig(newUpgradeAuthority: Option<Pubkey>, newGovernance: Option<Pubkey>,
                          newPausedState: Option<bool>)
    | UpgradeProgram(newProgramVersion: U32)

  datatype InstructionVersion = Legacy | V1

  datatype VersionedInstruction = VersionedInstruction(version: InstructionVersion, instruction: SwapInstruction)

  /**
   * The outcome of decoding: a value, an error returned to the caller, or an
   * abort of the whole program (an out-of-range slice in the legacy decoder).
   */
  datatype Decoding<+T> = Decoded(value: T) | Rejected(error: SwapError) | Aborted

  /** Borsh can length-prefix the asset list only if it has fewer than 2^32 entries. */
  predicate Encodable(c: SwapInstruction)
  {
    c.AddTradeStep? ==> |c.nftMints| < U32_LIMIT
  }

  // ---------------------------------------------------------------------
  // Versioned format (Borsh)
  // ---------------------------------------------------------------------

  function VersionTag(v: InstructionVersion): Byte
  {
    match v
    case Legacy => 0
    case V1 => 1
  }

  /** Borsh encoding of a command: discriminant byte, then the fields in order. */
  function BorshInstruction(c: SwapInstruction): (r: seq<Byte>)
    requires Encodable(c)
  {
    match c
    case InitializeTradeLoop(id, n, t) => [0] + id + [n] + EncodeU64(t)
    case AddTradeStep(i, to, mints) => [1, i] + to + EncodeKeyVec(mints)
    case ApproveTradeStep(i) => [2, i]
    case ExecuteTradeStep(i) => [3, i]
    case ExecuteFullTradeLoop => [4]
    case CancelTradeLoop => [5]
    case InitializeProgramConfig(g) => [6] + EncodeOptionKey(g)
    case UpdateProgramConfig(a, g, p) => [7] + EncodeOptionKey(a) + EncodeOptionKey(g) + EncodeOptionBool(p)
    case UpgradeProgram(v) => [8] + EncodeU32(v)
  }

  function BorshVersioned(v: VersionedInstruction): (r: seq<Byte>)
    requires Encodable(v.instruction)
  {
    [VersionTag(v.version)] + BorshInstruction(v.instruction)
  }

  /** Borsh decoding of a command; a discriminant above 8 is malformed. */
  function ParseInstruction(s: seq<Byte>): (p: Parse<SwapInstruction>)
  {
    if |s| < 1 then None
    else
      var tag, r := s[0], s[1..];
      if tag == 0 then
        (match ParseKey(r)
         case None => None
         case Some((id, r1)) =>
           match ParseU8(r1)
           case None => None
           case Some((n, r2)) =>
             match ParseU64(r2)
             case None => None
             case Some((t, r3)) => Some((InitializeTradeLoop(id, n, t), r3)))
      else if tag == 1 then
        (match ParseU8(r)
         case None => None
         case Some((i, r1)) =>
           match ParseKey(r1)
           case None => None
           case Some((to, r2)) =>
             match ParseKeyVec(r2)
             case None => None
             case Some((mints, r3)) => Some((AddTradeStep(i, to, mints), r3)))
      else if tag == 2 then
        (match ParseU8(r)
         case None => None
         case Some((i, r1)) => Some((ApproveTradeStep(i), r1)))
      else if tag == 3 then
        (match ParseU8(r)
         case None => None
         case Some((i, r1)) => Some((ExecuteTradeStep(i), r1)))
      else if tag == 4 then Some((ExecuteFullTradeLoop, r))
      else if tag == 5 then Some((CancelTradeLoop, r))
      else if tag == 6 then
        (match ParseOptionKey(r)
         case None => None
         case Some((g, r1)) => Some((InitializeProgramConfig(g), r1)))
      else if tag == 7 then
        (match ParseOptionKey(r)
         case None => None
         case Some((a, r1)) =>
           match ParseOptionKey(r1)
           case None => None
           case Some((g, r2)) =>
             match ParseOptionBool(r2)
             case None => None
             case Some((p, r3)) => Some((UpdateProgramConfig(a, g, p), r3)))
      else if tag == 8 then
        (match ParseU32(r)
         case None => None
         case Some((v, r1)) => Some((UpgradeProgram(v), r1)))
      else None
  }

  /** Borsh decoding of the wrapper: version byte 0 or 1, then the command. */
  function ParseVersioned(s: seq<Byte>): (p: Parse<VersionedInstruction>)
  {
    if |s| < 1 || s[0] > 1 then None
    else
      var version := if s[0] == 0 then Legacy else V1;
      match ParseInstruction(s[1..])
      case None => None
      case Some((c, rest)) => Some((VersionedInstruction(version, c), rest))
  }

  /**
   * `unpack_versioned`: decode the whole input as a `VersionedInstruction`
   * (`try_from_slice` rejects leftover bytes) and drop the version.
   */
  function UnpackVersioned(input: seq<Byte>): (r: Decoding<SwapInstruction>)
    ensures r.Decoded? || r == Rejected(InvalidInstructionData)
  {
    match ParseVersioned(input)
    case Some((v, rest)) => if |rest| == 0 then Decoded(v.instruction) else Rejected(InvalidInstructionData)
    case None => Rejected(InvalidInstructionData)
  }

  /** Every encodable command parses back from its Borsh bytes, leaving what follows untouched. */
  lemma InstructionParses(c: SwapInstruction, rest: seq<Byte>)
    requires Encodable(c)
    ensures ParseInstruction(BorshInstruction(c) + rest) == Some((c, rest))
  {
    match c
    case InitializeTradeLoop(id, n, t) => InitializeParses(id, n, t, rest);
    case AddTradeStep(i, to, mints) => AddStepParses(i, to, mints, rest);
    case ApproveTradeStep(_) => ShortCommandParses(c, rest);
    case ExecuteTradeStep(_) => ShortCommandParses(c, rest);
    case ExecuteFullTradeLoop => ShortCommandParses(c, rest);
    case CancelTradeLoop => ShortCommandParses(c, rest);
    case InitializeProgramConfig(_) => ShortCommandParses(c, rest);
    case UpdateProgramConfig(a, g, p) => UpdateConfigParses(a, g, p, rest);
    case UpgradeProgram(_) => ShortCommandParses(c, rest);
  }

  lemma ShortCommandParses(c: SwapInstruction, rest: seq<Byte>)
    requires c.ApproveTradeStep? || c.ExecuteTradeStep? || c.ExecuteFullTradeLoop? || c.CancelTradeLoop?
             || c.InitializeProgramConfig? || c.UpgradeProgram?
    ensures ParseInstruction(BorshInstruction(c) + rest) == Some((c, rest))
  {
    var s := BorshInstruction(c) + rest;
    if c.ApproveTradeStep? || c.ExecuteTradeStep? {
      assert s[1..] == [c.stepIndex] + rest;
      assert ([c.stepIndex] + rest)[1..] == rest;
    } else if c.InitializeProgramConfig? {
      assert s[1..] == EncodeOptionKey(c.governance) + rest;
      OptionKeyParses(c.governance, rest);
    } else if c.UpgradeProgram? {
      assert s[1..] == EncodeU32(c.newProgramVersion) + rest;
      U32Parses(c.newProgramVersion, rest);
    } else {
      assert s[1..] == rest;
    }
  }

  lemma InitializeParses(id: Bytes32, n: Byte, t: U64, rest: seq<Byte>)
    ensures ParseInstruction(BorshInstruction(InitializeTradeLoop(id, n, t)) + rest)
            == Some((InitializeTradeLoop(id, n, t), rest))
  {
    var s := BorshInstruction(InitializeTradeLoop(id, n, t)) + rest;
    var r := id + ([n] + (EncodeU64(t) + rest));
    assert s[1..] == r;
    assert r[..32] == id && r[32..] == [n] + (EncodeU64(t) + rest);
    assert ([n] + (EncodeU64(t) + rest))[1..] == EncodeU64(t) + rest;
    U64Parses(t, rest);
  }

  lemma AddStepParses(i: Byte, to: Pubkey, mints: seq<Pubkey>, rest: seq<Byte>)
    requires |mints| < U32_LIMIT
    ensures ParseInstruction(BorshInstruction(AddTradeStep(i, to, mints)) + rest)
            == Some((AddTradeStep(i, to, mints), rest))
  {
    var s := BorshInstruction(AddTradeStep(i, to, mints)) + rest;
    var r := [i] + (to + (EncodeKeyVec(mints) + rest));
    assert s[1..] == r;
    assert r[1..] == to + (EncodeKeyVec(mints) + rest);
    assert (to + (EncodeKeyVec(mints) + rest))[..32] == to;
    assert (to + (EncodeKeyVec(mints) + rest))[32..] == EncodeKeyVec(mints) + rest;
    KeyVecParses(mints, rest);
  }

  lemma UpdateConfigParses(a: Option<Pubkey>, g: Option<Pubkey>, p: Option<bool>, rest: seq<Byte>)
    ensures ParseInstruction(BorshInstruction(UpdateProgramConfig(a, g, p)) + rest)
            == Some((UpdateProgramConfig(a, g, p), rest))
  {
    var s := BorshInstruction(UpdateProgramConfig(a, g, p)) + rest;
    assert s[1..] == EncodeOptionKey(a) + (EncodeOptionKey(g) + (EncodeOptionBool(p) + rest));
    OptionKeyParses(a, EncodeOptionKey(g) + (EncodeOptionBool(p) + rest));
    OptionKeyParses(g, EncodeOptionBool(p) + rest);
    OptionBoolParses(p, rest);
  }

  lemma VersionedParses(v: VersionedInstruction, rest: seq<Byte>)
    requires Encodable(v.instruction)
    ensures ParseVersioned(BorshVersioned(v) + rest) == Some((v, rest))
  {
    var s := BorshVersioned(v) + rest;
    assert s[1..] == BorshInstruction(v.instruction) + rest;
    InstructionParses(v.instruction, rest);
  }

  // ---------------------------------------------------------------------
  // Legacy format
  // ---------------------------------------------------------------------

  /**
   * `unpack_pubkey_vector`: a count byte, then that many 32-byte keys;
   * bytes after the last key are ignored. An empty input aborts (it is
   * indexed at 0 without a check).
   */
  function DecodePubkeyVector(input: seq<Byte>): (r: Decoding<seq<Pubkey>>)
  {
    if |input| == 0 then Aborted
    else
      var count: nat := input[0];
      if |input| < 1 + count * 32 then Rejected(InvalidInstructionData)
      else Decoded(seq(count, i requires 0 <= i < count => input[1 + 32 * i .. 1 + 32 * i + 32]))
  }

  /** A flagged key: a byte that is non-zero for `Some`, then the key when present. */
  function ReadFlaggedKey(rest: seq<Byte>, offset: nat): (r: Option<(Option<Pubkey>, nat)>)
    ensures r.Some? ==> offset < r.value.1 <= |rest|
  {
    if offset >= |rest| then None
    else if rest[offset] != 0 then
      (if offset + 33 > |rest| then None
       else Some((Some(rest[offset + 1 .. offset + 33]), offset + 33)))
    else Some((None, offset + 1))
  }

  /** A flagged boolean: a presence byte, then a byte that is non-zero for `true`. */
  function ReadFlaggedBool(rest: seq<Byte>, offset: nat): (r: Option<Option<bool>>)
  {
    if offset >= |rest| then None
    else if rest[offset] != 0 then
      (if offset + 1 >= |rest| then None else Some(Some(rest[offset + 1] != 0)))
    else Some(None)
  }

  /** `unpack_legacy`: the tag byte selects the command; a truncated input aborts. */
  function DecodeLegacy(input: seq<Byte>): (r: Decoding<SwapInstruction>)
  {
    if |input| == 0 then Rejected(InvalidInstructionData)
    else
      var tag, rest := input[0], input[1..];
      if tag == 0 then
        (if |rest| < 41 then Aborted
         else Decoded(InitializeTradeLoop(rest[..32], rest[32], U64FromLe(rest[33..41]))))
      else if tag == 1 then
        (if |rest| < 33 then Aborted
         else match DecodePubkeyVector(rest[33..])
           case Decoded(mints) => Decoded(AddTradeStep(rest[0], rest[1..33], mints))
           case Rejected(e) => Rejected(e)
           case Aborted => Aborted)
      else if tag == 2 then
        (if |rest| < 1 then Aborted else Decoded(ApproveTradeStep(rest[0])))
      else if tag == 3 then
        (if |rest| < 1 then Aborted else Decoded(ExecuteTradeStep(rest[0])))
      else if tag == 4 then Decoded(ExecuteFullTradeLoop)
      else if tag == 5 then Decoded(CancelTradeLoop)
      else if tag == 6 then
        (if |rest| < 4 then Aborted else Decoded(UpgradeProgram(U32FromLe(rest[..4]))))
      else if tag == 7 then
        (match ReadFlaggedKey(rest, 0)
         case None => Aborted
         case Some((g, _)) => Decoded(InitializeProgramConfig(g)))
      else if tag == 8 then
        (match ReadFlaggedKey(rest, 0)
         case None => Aborted
         case Some((a, o1)) =>
           match ReadFlaggedKey(rest, o1)
           case None => Aborted
           case Some((g, o2)) =>
             match ReadFlaggedBool(rest, o2)
             case None => Aborted
             case Some(p) => Decoded(UpdateProgramConfig(a, g, p)))
      else Rejected(InvalidInstructionData)
  }

  /** `unpack`: empty input is rejected; 255 followed by at least one byte is versioned; anything else is legacy. */
  function Decode(input: seq<Byte>): (r: Decoding<SwapInstruction>)
  {
    if |input| == 0 then Rejected(InvalidInstructionData)
    else if |input| >= 2 && input[0] == 255 then UnpackVersioned(input[1..])
    else DecodeLegacy(input)
  }

  /** `pack_legacy`: tag, then the fixed fields; the asset count is written as one byte (`len() as u8`). */
  function EncodeLegacy(c: SwapInstruction): (r: seq<Byte>)
    ensures |r| >= 1 && r[0] <= 8
  {
    match c
    case InitializeTradeLoop(id, n, t) => [0] + id + [n] + LittleEndian(t, 8)
    case AddTradeStep(i, to, mints) => [1, i] + to + [|mints| % 256] + Flatten(mints)
    case ApproveTradeStep(i) => [2, i]
    case ExecuteTradeStep(i) => [3, i]
    case ExecuteFullTradeLoop => [4]
    case CancelTradeLoop => [5]
    case UpgradeProgram(v) => [6] + LittleEndian(v, 4)
    case InitializeProgramConfig(g) => [7] + EncodeOptionKey(g)
    case UpdateProgramConfig(a, g, p) => [8] + EncodeOptionKey(a) + EncodeOptionKey(g) + EncodeOptionBool(p)
  }

  /** What the legacy format can carry of a command: only the first `len mod 256` assets survive. */
  function LegacyView(c: SwapInstruction): SwapInstruction
  {
    if c.AddTradeStep? then c.(nftMints := c.nftMints[..|c.nftMints| % 256]) else c
  }

  // ---------------------------------------------------------------------
  // Properties of the decoders
  // ---------------------------------------------------------------------

  /** An empty instruction is rejected, not aborted. */
  lemma EmptyInputRejected()
    ensures Decode([]) == Rejected(InvalidInstructionData)
  {
  }

  /** Outside the versioned route, a tag above 8 is rejected; a lone byte 255 takes this route. */
  lemma UnknownTagRejected(input: seq<Byte>)
    requires |input| >= 1 && input[0] > 8
    requires !(|input| >= 2 && input[0] == 255)
    ensures Decode(input) == Rejected(InvalidInstructionData)
  {
  }

  /** A versioned input whose version byte is neither 0 nor 1 is rejected. */
  lemma UnknownVersionRejected(input: seq<Byte>)
    requires |input| >= 2 && input[0] == 255 && input[1] > 1
    ensures Decode(input) == Rejected(InvalidInstructionData)
  {
  }

  /** A versioned input decodes to its embedded command, whichever of the two versions it names. */
  lemma VersionedRoundTrip(v: VersionedInstruction)
    requires Encodable(v.instruction)
    ensures Decode([255] + BorshVersioned(v)) == Decoded(v.instruction)
  {
    var input := [255] + BorshVersioned(v);
    assert input[1..] == BorshVersioned(v) + [];
    VersionedParses(v, []);
  }

  /** Any byte after a complete versioned payload makes the whole input malformed. */
  lemma VersionedTrailingBytesRejected(v: VersionedInstruction, extra: seq<Byte>)
    requires Encodable(v.instruction) && |extra| > 0
    ensures Decode([255] + BorshVersioned(v) + extra) == Rejected(InvalidInstructionData)
  {
    var input := [255] + BorshVersioned(v) + extra;
    assert input[1..] == BorshVersioned(v) + extra;
    VersionedParses(v, extra);
  }

  /** A key vector fails only when too short, and then with InvalidInstructionData; on success it has `count` keys. */
  lemma PubkeyVectorShape(input: seq<Byte>)
    requires |input| > 0
    ensures DecodePubkeyVector(input).Rejected? <==> |input| < 1 + 32 * (input[0] as int)
    ensures DecodePubkeyVector(input).Rejected? ==> DecodePubkeyVector(input).error == InvalidInstructionData
    ensures DecodePubkeyVector(input).Decoded? ==>
              |DecodePubkeyVector(input).value| == input[0] &&
              forall i: nat :: i < input[0] ==> DecodePubkeyVector(input).value[i] == input[1 + 32 * i .. 33 + 32 * i]
  {
  }

  /** Bytes after the last key do not change a successful key-vector decode. */
  lemma PubkeyVectorIgnoresTrailing(input: seq<Byte>, extra: seq<Byte>)
    requires DecodePubkeyVector(input).Decoded?
    ensures DecodePubkeyVector(input + extra) == DecodePubkeyVector(input)
  {
    var count: nat := input[0];
    var longer := input + extra;
    assert longer[0] == count;
    var short := seq(count, i requires 0 <= i < count => input[1 + 32 * i .. 1 + 32 * i + 32]);
    var long := seq(count, i requires 0 <= i < count => longer[1 + 32 * i .. 1 + 32 * i + 32]);
    forall i | 0 <= i < count ensures long[i] == short[i] {
      SliceAfterHeader([], input, extra, 1 + 32 * i, 32);
      assert [] + input + extra == longer;
    }
    assert long == short;
  }

  /** The legacy count byte followed by the flattened keys decodes to the first `count` keys. */
  lemma PubkeyVectorOfKeys(keys: seq<Pubkey>, extra: seq<Byte>)
    ensures DecodePubkeyVector([|keys| % 256] + Flatten(keys) + extra) == Decoded(keys[..|keys| % 256])
  {
    var count := |keys| % 256;
    assert count <= |keys| by {
      var n := |keys|;
      assert n == 256 * (n / 256) + n % 256;
      assert n / 256 >= 0;
    }
    PubkeyVectorOfPrefix(keys, count, extra);
  }

  /** A count byte, then keys: the first `count` keys come back, whatever follows them. */
  lemma PubkeyVectorOfPrefix(keys: seq<Pubkey>, count: Byte, extra: seq<Byte>)
    requires count <= |keys|
    ensures DecodePubkeyVector([count] + Flatten(keys) + extra) == Decoded(keys[..count])
  {
    var input := [count] + Flatten(keys) + extra;
    var n: nat := count;
    assert input[0] == count;
    assert |input| >= 1 + 32 * n;
    PubkeyVectorShape(input);
    var decoded := DecodePubkeyVector(input);
    assert decoded.Decoded?;
    forall i | 0 <= i < n ensures decoded.value[i] == keys[i] {
      KeyAfterCount(keys, count, extra, i);
    }
    assert decoded.value == keys[..n];
  }

  lemma KeyAfterCount(keys: seq<Pubkey>, count: Byte, extra: seq<Byte>, i: nat)
    requires i < |keys|
    ensures ([count] + Flatten(keys) + extra)[1 + 32 * i .. 1 + 32 * i + 32] == keys[i]
  {
    var flat := Flatten(keys);
    FlattenSlice(keys, i);
    assert 32 * i + 32 <= |flat|;
    SliceAfterHeader([count], flat, extra, 32 * i, 32);
  }

  /** A slice inside the middle part of `head + middle + tail`, shifted by the header's length. */
  lemma SliceAfterHeader(head: seq<Byte>, middle: seq<Byte>, tail: seq<Byte>, start: nat, len: nat)
    requires start + len <= |middle|
    ensures (head + middle + tail)[|head| + start .. |head| + start + len] == middle[start .. start + len]
  {
  }

  lemma FlaggedKeyReads(pre: seq<Byte>, o: Option<Pubkey>, post: seq<Byte>)
    ensures ReadFlaggedKey(pre + EncodeOptionKey(o) + post, |pre|) == Some((o, |pre| + |EncodeOptionKey(o)|))
  {
    var s := pre + EncodeOptionKey(o) + post;
    if o.Some? {
      assert s[|pre| + 1 .. |pre| + 33] == o.value;
    }
  }

  lemma FlaggedBoolReads(pre: seq<Byte>, o: Option<bool>)
    ensures ReadFlaggedBool(pre + EncodeOptionBool(o), |pre|) == Some(o)
  {
  }

  /** Legacy encoding of the commands without a key list: decoding gives the command back. */
  lemma LegacyFixedRoundTrip(c: SwapInstruction)
    requires !c.AddTradeStep? && !c.UpdateProgramConfig? && !c.InitializeTradeLoop?
    ensures DecodeLegacy(EncodeLegacy(c)) == Decoded(c)
  {
    var rest := EncodeLegacy(c)[1..];
    match c
    case UpgradeProgram(v) =>
      assert rest[..4] == LittleEndian(v, 4);
      U32RoundTrip(v);
    case InitializeProgramConfig(g) =>
      assert rest == [] + EncodeOptionKey(g) + [];
      FlaggedKeyReads([], g, []);
    case _ =>
  }

  lemma LegacyInitializeRoundTrip(c: SwapInstruction)
    requires c.InitializeTradeLoop?
    ensures DecodeLegacy(EncodeLegacy(c)) == Decoded(c)
  {
    var rest := EncodeLegacy(c)[1..];
    assert rest == c.tradeId + [c.stepCount] + LittleEndian(c.timeoutSeconds, 8);
    assert rest[..32] == c.tradeId && rest[32] == c.stepCount;
    assert rest[33..41] == LittleEndian(c.timeoutSeconds, 8);
    U64RoundTrip(c.timeoutSeconds);
  }

  lemma LegacyAddStepRoundTrip(c: SwapInstruction)
    requires c.AddTradeStep?
    ensures DecodeLegacy(EncodeLegacy(c)) == Decoded(LegacyView(c))
  {
    var count := |c.nftMints| % 256;
    var rest := EncodeLegacy(c)[1..];
    assert rest == [c.stepIndex] + c.to + ([count] + Flatten(c.nftMints));
    assert rest[0] == c.stepIndex && rest[1..33] == c.to;
    assert rest[33..] == [count] + Flatten(c.nftMints) + [];
    PubkeyVectorOfKeys(c.nftMints, []);
  }

  lemma LegacyUpdateConfigRoundTrip(c: SwapInstruction)
    requires c.UpdateProgramConfig?
    ensures DecodeLegacy(EncodeLegacy(c)) == Decoded(c)
  {
    var a, g, p := c.newUpgradeAuthority, c.newGovernance, c.newPausedState;
    var rest := EncodeLegacy(c)[1..];
    assert rest == EncodeOptionKey(a) + EncodeOptionKey(g) + EncodeOptionBool(p);
    assert rest == [] + EncodeOptionKey(a) + (EncodeOptionKey(g) + EncodeOptionBool(p));
    FlaggedKeyReads([], a, EncodeOptionKey(g) + EncodeOptionBool(p));
    var o1 := |EncodeOptionKey(a)|;
    assert rest == EncodeOptionKey(a) + EncodeOptionKey(g) + EncodeOptionBool(p);
    FlaggedKeyReads(EncodeOptionKey(a), g, EncodeOptionBool(p));
    var o2 := o1 + |EncodeOptionKey(g)|;
    assert rest == (EncodeOptionKey(a) + EncodeOptionKey(g)) + EncodeOptionBool(p);
    FlaggedBoolReads(EncodeOptionKey(a) + EncodeOptionKey(g), p);
  }

  /**
   * Legacy round trip: decoding a legacy encoding gives the command back,
   * except that an asset list is cut to its first `len mod 256` entries.
   */
  lemma LegacyRoundTrip(c: SwapInstruction)
    ensures Decode(EncodeLegacy(c)) == Decoded(LegacyView(c))
  {
    if c.InitializeTradeLoop? {
      LegacyInitializeRoundTrip(c);
    } else if c.AddTradeStep? {
      LegacyAddStepRoundTrip(c);
    } else if c.UpdateProgramConfig? {
      LegacyUpdateConfigRoundTrip(c);
    } else {
      LegacyFixedRoundTrip(c);
    }
  }

  /** With at most 255 assets the legacy format round-trips exactly. */
  lemma LegacyRoundTripExact(c: SwapInstruction)
    requires c.AddTradeStep? ==> |c.nftMints| <= 255
    ensures Decode(EncodeLegacy(c)) == Decoded(c)
  {
    LegacyRoundTrip(c);
    if c.AddTradeStep? {
      assert c.nftMints[..|c.nftMints| % 256] == c.nftMints;
    }
  }

  /** Legacy bytes never start with 255, so the decoder never mistakes them for the versioned format. */
  lemma LegacyNeverVersioned(c: SwapInstruction)
    ensures Decode(EncodeLegacy(c)) == DecodeLegacy(EncodeLegacy(c))
  {
  }

  /** Encoded sizes of the legacy commands. */
  lemma LegacyLengths(c: SwapInstruction)
    ensures c.InitializeTradeLoop? ==> |EncodeLegacy(c)| == 42
    ensures c.AddTradeStep? ==> |EncodeLegacy(c)| == 35 + 32 * |c.nftMints|
    ensures c.ApproveTradeStep? || c.ExecuteTradeStep? ==> |EncodeLegacy(c)| == 2
    ensures c.ExecuteFullTradeLoop? || c.CancelTradeLoop? ==> |EncodeLegacy(c)| == 1
    ensures c.UpgradeProgram? ==> |EncodeLegacy(c)| == 5
    ensures c.InitializeProgramConfig? ==> |EncodeLegacy(c)| == if c.governance.Some? then 34 else 2
    ensures c.UpdateProgramConfig? ==>
              |EncodeLegacy(c)| == 4 + (if c.newUpgradeAuthority.Some? then 32 else 0)
                                     + (if c.newGovernance.Some? then 32 else 0)
                                     + (if c.newPausedState.Some? then 1 else 0)
  {
  }

  // ---------------------------------------------------------------------
  // The program's packing and unpacking routines
  // ---------------------------------------------------------------------

  /** `unpack_pubkey_vector`: check the length, then push one key per iteration. */
  method UnpackPubkeyVector(input: seq<Byte>) returns (r: Decoding<seq<Pubkey>>)
    ensures r == DecodePubkeyVector(input)
  {
    if |input| == 0 {
      return Aborted;
    }
    var count: nat := input[0];
    if |input| < 1 + count * 32 {
      return Rejected(InvalidInstructionData);
    }
    var pubkeys: seq<Pubkey> := [];
    for i := 0 to count
      invariant |pubkeys| == i
      invariant forall j :: 0 <= j < i ==> pubkeys[j] == input[1 + 32 * j .. 1 + 32 * j + 32]
    {
      var start := 1 + i * 32;
      var end := start + 32;
      pubkeys := pubkeys + [input[start..end]];
    }
    assert pubkeys == seq(count, i requires 0 <= i < count => input[1 + 32 * i .. 1 + 32 * i + 32]);
    r := Decoded(pubkeys);
  }

  /** Tag 8 of `unpack_legacy`: three flagged fields read at a running offset. */
  method UnpackUpdateProgramConfig(rest: seq<Byte>) returns (r: Decoding<SwapInstruction>)
    ensures r == DecodeLegacy([8] + rest)
  {
    assert ([8] + rest)[1..] == rest;
    var offset := 0;
    if offset >= |rest| {
      return Aborted;
    }
    var hasNewAuthority := rest[offset] != 0;
    offset := offset + 1;
    var newUpgradeAuthority: Option<Pubkey> := None;
    if hasNewAuthority {
      if offset + 32 > |rest| {
        return Aborted;
      }
      newUpgradeAuthority := Some(rest[offset .. offset + 32]);
      offset := offset + 32;
    }
    assert ReadFlaggedKey(rest, 0) == Some((newUpgradeAuthority, offset));
    ghost var o1 := offset;
    if offset >= |rest| {
      return Aborted;
    }
    var hasNewGovernance := rest[offset] != 0;
    offset := offset + 1;
    var newGovernance: Option<Pubkey> := None;
    if hasNewGovernance {
      if offset + 32 > |rest| {
        return Aborted;
      }
      newGovernance := Some(rest[offset .. offset + 32]);
      offset := offset + 32;
    }
    assert ReadFlaggedKey(rest, o1) == Some((newGovernance, offset));
    if offset >= |rest| {
      return Aborted;
    }
    var hasNewPausedState := rest[offset] != 0;
    offset := offset + 1;
    var newPausedState: Option<bool> := None;
    if hasNewPausedState {
      if offset >= |rest| {
        return Aborted;
      }
      newPausedState := Some(rest[offset] != 0);
    }
    r := Decoded(UpdateProgramConfig(newUpgradeAuthority, newGovernance, newPausedState));
  }

  /** `unpack_legacy`. */
  method UnpackLegacy(input: seq<Byte>) returns (r: Decoding<SwapInstruction>)
    ensures r == DecodeLegacy(input)
  {
    if |input| == 0 {
      return Rejected(InvalidInstructionData);
    }
    var tag, rest := input[0], input[1..];
    if tag == 0 {
      if |rest| < 41 {
        return Aborted;
      }
      r := Decoded(InitializeTradeLoop(rest[..32], rest[32], U64FromLe(rest[33..41])));
    } else if tag == 1 {
      if |rest| < 33 {
        return Aborted;
      }
      var mints := UnpackPubkeyVector(rest[33..]);
      match mints
      case Decoded(keys) => r := Decoded(AddTradeStep(rest[0], rest[1..33], keys));
      case Rejected(e) => r := Rejected(e);
      case Aborted => r := Aborted;
    } else if tag == 2 || tag == 3 {
      if |rest| < 1 {
        return Aborted;
      }
      r := if tag == 2 then Decoded(ApproveTradeStep(rest[0])) else Decoded(ExecuteTradeStep(rest[0]));
    } else if tag == 4 {
      r := Decoded(ExecuteFullTradeLoop);
    } else if tag == 5 {
      r := Decoded(CancelTradeLoop);
    } else if tag == 6 {
      if |rest| < 4 {
        return Aborted;
      }
      r := Decoded(UpgradeProgram(U32FromLe(rest[0..4])));
    } else if tag == 7 {
      if |rest| < 1 {
        return Aborted;
      }
      if rest[0] != 0 {
        if |rest| < 33 {
          return Aborted;
        }
        r := Decoded(InitializeProgramConfig(Some(rest[1..33])));
      } else {
        r := Decoded(InitializeProgramConfig(None));
      }
    } else if tag == 8 {
      assert input == [8] + rest;
      r := UnpackUpdateProgramConfig(rest);
    } else {
      r := Rejected(InvalidInstructionData);
    }
  }

  /** `unpack`: route on the first byte, then decode. */
  method Unpack(input: seq<Byte>) returns (r: Decoding<SwapInstruction>)
    ensures r == Decode(input)
  {
    if |input| == 0 {
      return Rejected(InvalidInstructionData);
    }
    if |input| >= 2 && input[0] == 255 {
      return UnpackVersioned(input[1..]);
    }
    r := UnpackLegacy(input);
  }

  /** Appends each key in turn, as the asset loop of `pack_legacy` does. */
  method AppendKeys(prefix: seq<Byte>, keys: seq<Pubkey>) returns (packed: seq<Byte>)
    ensures packed == prefix + Flatten(keys)
  {
    packed := prefix;
    for k := 0 to |keys|
      invariant packed == prefix + Flatten(keys[..k])
    {
      FlattenAppend(keys[..k], keys[k]);
      assert keys[..k + 1] == keys[..k] + [keys[k]];
      packed := packed + keys[k];
    }
    assert keys[..|keys|] == keys;
  }

  /** `pack_legacy`: push the tag and the fields, then append each asset key in turn. */
  method PackLegacy(c: SwapInstruction) returns (packed: seq<Byte>)
    ensures packed == EncodeLegacy(c)
  {
    match c
    case InitializeTradeLoop(id, n, t) =>
      packed := [0];
      packed := packed + id;
      packed := packed + [n];
      packed := packed + LittleEndian(t, 8);
    case AddTradeStep(i, to, mints) =>
      packed := [1, i];
      packed := packed + to;
      packed := packed + [|mints| % 256];
      packed := AppendKeys(packed, mints);
    case ApproveTradeStep(i) =>
      packed := [2, i];
    case ExecuteTradeStep(i) =>
      packed := [3, i];
    case ExecuteFullTradeLoop =>
      packed := [4];
    case CancelTradeLoop =>
      packed := [5];
    case UpgradeProgram(v) =>
      packed := [6];
      packed := packed + LittleEndian(v, 4);
    case InitializeProgramConfig(g) =>
      packed := PushFlaggedKey([7], g);
    case UpdateProgramConfig(a, g, p) =>
      packed := PushFlaggedKey([8], a);
      packed := PushFlaggedKey(packed, g);
      packed := PushFlaggedBool(packed, p);
  }

  /** One optional key of `pack_legacy`: a 1 and the key, or a 0. */
  method PushFlaggedKey(prefix: seq<Byte>, o: Option<Pubkey>) returns (packed: seq<Byte>)
    ensures packed == prefix + EncodeOptionKey(o)
  {
    if o.Some? {
      packed := prefix + [1];
      packed := packed + o.value;
    } else {
      packed := prefix + [0];
    }
  }

  /** The optional paused flag of `pack_legacy`: a 1 and the flag as 0 or 1, or a 0. */
  method PushFlaggedBool(prefix: seq<Byte>, o: Option<bool>) returns (packed: seq<Byte>)
    ensures packed == prefix + EncodeOptionBool(o)
  {
    if o.Some? {
      packed := prefix + [1];
      packed := packed + [if o.value then 1 else 0];
    } else {
      packed := prefix + [0];
    }
  }

  /**
   * `pack_versioned`: the byte 255, then the Borsh encoding of the command
   * wrapped with version V1. Decoding the result gives the command back.
   */
  method PackVersioned(c: SwapInstruction) returns (packed: seq<Byte>)
    requires Encodable(c)
    ensures |packed| >= 2 && packed[0] == 255 && packed[1] == VersionTag(V1)
    ensures Decode(packed) == Decoded(c)
  {
    var versioned := VersionedInstruction(V1, c);
    packed := [255];
    packed := packed + BorshVersioned(versioned);
    VersionedRoundTrip(versioned);
  }
}
