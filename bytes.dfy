/**
 * Bytes, fixed-width unsigned integers and 32-byte keys, with the
 * little-endian integer encoding that both instruction formats use.
 */
module Bytes {

  /** An unsigned 8-bit value (Rust `u8`). */
  type Byte = x: int | 0 <= x < 256

  /** Rust `u32` and `u64`. */
  const U32_LIMIT: nat := 0x1_0000_0000
  const U64_LIMIT: nat := 0x1_0000_0000_0000_0000
  type U32 = x: nat | x < U32_LIMIT
  type U64 = x: nat | x < U64_LIMIT

  /** A 32-byte value: a `Pubkey` or a `[u8; 32]` trade identifier. */
  type Bytes32 = s: seq<Byte> | |s| == 32 witness seq(32, _ => 0)
  type Pubkey = Bytes32

  function Pow256(n: nat): (p: nat)
    ensures p >= 1
  {
    if n == 0 then 1 else 256 * Pow256(n - 1)
  }

  /** The `n` least significant bytes of `x`, least significant first (`to_le_bytes`). */
  function LittleEndian(x: nat, n: nat): (r: seq<Byte>)
    ensures |r| == n
  {
    if n == 0 then [] else [x % 256] + LittleEndian(x / 256, n - 1)
  }

  /** The number whose little-endian bytes are `s` (`from_le_bytes`). */
  function FromLittleEndian(s: seq<Byte>): (x: nat)
    ensures x < Pow256(|s|)
  {
    if |s| == 0 then 0 else s[0] + 256 * FromLittleEndian(s[1..])
  }

  /** Decoding the little-endian encoding of a value that fits gives the value back. */
  lemma {:induction false} LittleEndianRoundTrip(x: nat, n: nat)
    requires x < Pow256(n)
    ensures FromLittleEndian(LittleEndian(x, n)) == x
  {
    if n > 0 {
      LittleEndianRoundTrip(x / 256, n - 1);
      assert LittleEndian(x, n)[1..] == LittleEndian(x / 256, n - 1);
    }
  }

  lemma U32Width()
    ensures Pow256(4) == U32_LIMIT
  {
  }

  lemma U64Width()
    ensures Pow256(8) == U64_LIMIT
  {
  }

  /** `u32::from_le_bytes`. */
  function U32FromLe(s: seq<Byte>): U32
    requires |s| == 4
  {
    U32Width();
    FromLittleEndian(s)
  }

  /** `u64::from_le_bytes`. */
  function U64FromLe(s: seq<Byte>): U64
    requires |s| == 8
  {
    U64Width();
    FromLittleEndian(s)
  }

  /** `to_le_bytes` followed by `from_le_bytes` is the identity on `u32`. */
  lemma U32RoundTrip(x: U32)
    ensures U32FromLe(LittleEndian(x, 4)) == x
  {
    U32Width();
    LittleEndianRoundTrip(x, 4);
  }

  /** `to_le_bytes` followed by `from_le_bytes` is the identity on `u64`. */
  lemma U64RoundTrip(x: U64)
    ensures U64FromLe(LittleEndian(x, 8)) == x
  {
    U64Width();
    LittleEndianRoundTrip(x, 8);
  }

  /** The concatenation of 32-byte keys, as they are laid out one after another on the wire. */
  function Flatten(keys: seq<Pubkey>): (r: seq<Byte>)
    ensures |r| == 32 * |keys|
  {
    if |keys| == 0 then [] else keys[0] + Flatten(keys[1..])
  }

  /** Key `i` of a flattened sequence sits at bytes `32 * i .. 32 * i + 32`. */
  lemma {:induction false} FlattenSlice(keys: seq<Pubkey>, i: nat)
    requires i < |keys|
    ensures Flatten(keys)[32 * i .. 32 * i + 32] == keys[i]
  {
    if i > 0 {
      FlattenSlice(keys[1..], i - 1);
      assert Flatten(keys)[32 * i .. 32 * i + 32] == Flatten(keys[1..])[32 * (i - 1) .. 32 * (i - 1) + 32];
    }
  }

  lemma {:induction false} FlattenAppend(keys: seq<Pubkey>, k: Pubkey)
    ensures Flatten(keys + [k]) == Flatten(keys) + k
  {
    if |keys| > 0 {
      FlattenAppend(keys[1..], k);
      assert (keys + [k])[1..] == keys[1..] + [k];
    } else {
      assert keys + [k] == [k];
    }
  }
}
