/**
 * The Borsh binary format, for the value shapes the instruction set uses:
 * bytes, little-endian `u32`/`u64`, strict booleans, `Option` with a 0/1
 * tag, 32-byte keys and `Vec<Pubkey>` with a `u32` length prefix.
 * Each parser returns the value and the input left over after it.
 */
module Borsh {
  import opened Wrappers
  import opened Bytes

  /** A parse: the value read and the unread remainder, or nothing on malformed input. */
  type Parse<T> = Option<(T, seq<Byte>)>

  function EncodeU32(x: U32): (r: seq<Byte>) { LittleEndian(x, 4) }
  function EncodeU64(x: U64): (r: seq<Byte>) { LittleEndian(x, 8) }
  function EncodeBool(b: bool): (r: seq<Byte>) { if b then [1] else [0] }

  function EncodeOptionKey(o: Option<Pubkey>): (r: seq<Byte>)
  {
    match o
    case None => [0]
    case Some(k) => [1] + k
  }

  function EncodeOptionBool(o: Option<bool>): (r: seq<Byte>)
  {
    match o
    case None => [0]
    case Some(b) => [1] + EncodeBool(b)
  }

  function EncodeKeyVec(keys: seq<Pubkey>): (r: seq<Byte>)
    requires |keys| < U32_LIMIT
  {
    EncodeU32(|keys|) + Flatten(keys)
  }

  function ParseU8(s: seq<Byte>): (p: Parse<Byte>)
  {
    if |s| < 1 then None else Some((s[0], s[1..]))
  }

  function ParseU32(s: seq<Byte>): (p: Parse<U32>)
  {
    if |s| < 4 then None else Some((U32FromLe(s[..4]), s[4..]))
  }

  function ParseU64(s: seq<Byte>): (p: Parse<U64>)
  {
    if |s| < 8 then None else Some((U64FromLe(s[..8]), s[8..]))
  }

  /** A boolean is the byte 0 or 1; any other byte is malformed. */
  function ParseBool(s: seq<Byte>): (p: Parse<bool>)
  {
    if |s| < 1 || s[0] > 1 then None else Some((s[0] == 1, s[1..]))
  }

  function ParseKey(s: seq<Byte>): (p: Parse<Pubkey>)
  {
    if |s| < 32 then None else Some((s[..32], s[32..]))
  }

  function ParseOptionKey(s: seq<Byte>): (p: Parse<Option<Pubkey>>)
  {
    if |s| < 1 then None
    else if s[0] == 0 then Some((None, s[1..]))
    else if s[0] == 1 then
      (match ParseKey(s[1..])
       case None => None
       case Some((k, rest)) => Some((Some(k), rest)))
    else None
  }

  function ParseOptionBool(s: seq<Byte>): (p: Parse<Option<bool>>)
  {
    if |s| < 1 then None
    else if s[0] == 0 then Some((None, s[1..]))
    else if s[0] == 1 then
      (match ParseBool(s[1..])
       case None => None
       case Some((b, rest)) => Some((Some(b), rest)))
    else None
  }

  /** `n` keys, one after another. */
  function ParseKeys(s: seq<Byte>, n: nat): (p: Parse<seq<Pubkey>>)
    ensures p.Some? ==> |p.value.0| == n
    decreases n
  {
    if n == 0 then Some(([], s))
    else if |s| < 32 then None
    else
      match ParseKeys(s[32..], n - 1)
      case None => None
      case Some((keys, rest)) => Some(([s[..32]] + keys, rest))
  }

  function ParseKeyVec(s: seq<Byte>): (p: Parse<seq<Pubkey>>)
  {
    match ParseU32(s)
    case None => None
    case Some((n, rest)) => ParseKeys(rest, n)
  }

  lemma U32Parses(x: U32, rest: seq<Byte>)
    ensures ParseU32(EncodeU32(x) + rest) == Some((x, rest))
  {
    var s := EncodeU32(x) + rest;
    assert s[..4] == EncodeU32(x) && s[4..] == rest;
    U32RoundTrip(x);
  }

  lemma U64Parses(x: U64, rest: seq<Byte>)
    ensures ParseU64(EncodeU64(x) + rest) == Some((x, rest))
  {
    var s := EncodeU64(x) + rest;
    assert s[..8] == EncodeU64(x) && s[8..] == rest;
    U64RoundTrip(x);
  }

  lemma OptionKeyParses(o: Option<Pubkey>, rest: seq<Byte>)
    ensures ParseOptionKey(EncodeOptionKey(o) + rest) == Some((o, rest))
  {
    var s := EncodeOptionKey(o) + rest;
    match o
    case None =>
      assert s[1..] == rest;
    case Some(k) =>
      assert s[1..] == k + rest;
      assert (k + rest)[..32] == k && (k + rest)[32..] == rest;
  }

  lemma OptionBoolParses(o: Option<bool>, rest: seq<Byte>)
    ensures ParseOptionBool(EncodeOptionBool(o) + rest) == Some((o, rest))
  {
    var s := EncodeOptionBool(o) + rest;
    match o
    case None =>
      assert s[1..] == rest;
    case Some(b) =>
      assert s[1..] == EncodeBool(b) + rest;
      assert (EncodeBool(b) + rest)[1..] == rest;
  }

  lemma {:induction false} KeysParse(keys: seq<Pubkey>, rest: seq<Byte>)
    ensures ParseKeys(Flatten(keys) + rest, |keys|) == Some((keys, rest))
  {
    if |keys| > 0 {
      var s := Flatten(keys) + rest;
      assert Flatten(keys) == keys[0] + Flatten(keys[1..]);
      assert s == keys[0] + (Flatten(keys[1..]) + rest);
      assert s[..32] == keys[0];
      assert s[32..] == Flatten(keys[1..]) + rest;
      KeysParse(keys[1..], rest);
      assert ParseKeys(s, |keys|) == Some(([s[..32]] + keys[1..], rest));
      assert [keys[0]] + keys[1..] == keys;
    } else {
      assert keys == [] && Flatten(keys) + rest == rest;
    }
  }

  /** A length-prefixed key vector parses back to the keys it encodes. */
  lemma KeyVecParses(keys: seq<Pubkey>, rest: seq<Byte>)
    requires |keys| < U32_LIMIT
    ensures ParseKeyVec(EncodeKeyVec(keys) + rest) == Some((keys, rest))
  {
    assert EncodeKeyVec(keys) + rest == EncodeU32(|keys|) + (Flatten(keys) + rest);
    U32Parses(|keys|, Flatten(keys) + rest);
    KeysParse(keys, rest);
  }
}
