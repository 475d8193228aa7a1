/** The 16-byte random identity that distinguishes Animation instances. */
module Uuid {
  import opened MachineInts

  const UUID_BYTES: nat := 16

  /** The `Byte uuid[16]` buffer. */
  type UUID = s: seq<u8> | |s| == UUID_BYTES
    witness [0, 0, 0, 0, 0, 0, 0, 0, 0, 0, 0, 0, 0, 0, 0, 0]

  /** 256^n. */
  function Pow256(n: nat): (p: nat)
    ensures p >= 1
  {
    if n == 0 then 1 else 256 * Pow256(n - 1)
  }

  /** The `n` bytes `memcpy` copies out of the value `x`, least significant first
      (the byte order of the little-endian microcontrollers). */
  function LittleEndian(x: nat, n: nat): (bs: seq<u8>)
    ensures |bs| == n
  {
    if n == 0 then [] else [x % 256] + LittleEndian(x / 256, n - 1)
  }

  /** The number whose little-endian byte image is `bs`. */
  function ValueOf(bs: seq<u8>): (x: nat)
    ensures x < Pow256(|bs|)
  {
    if bs == [] then 0 else bs[0] + 256 * ValueOf(bs[1..])
  }

  /** Reading the bytes back gives the value copied, whenever it fits in `n` bytes. */
  lemma {:induction false} ValueOfLittleEndian(x: nat, n: nat)
    requires x < Pow256(n)
    ensures ValueOf(LittleEndian(x, n)) == x
  {
    if n > 0 {
      ValueOfLittleEndian(x / 256, n - 1);
      assert LittleEndian(x, n)[1..] == LittleEndian(x / 256, n - 1);
    }
  }

  /** The first eight bytes of an identity read as a number, and the last eight. */
  function Draws(id: UUID): (draws: (u64, u64))
  {
    (ValueOf(id[..8]), ValueOf(id[8..]))
  }

  /** The UUID constructor: two 64-bit random draws copied into bytes 0..7 and 8..15.
      The two "version bit" expressions compute a value and discard it, so the bytes are
      exactly the two draws, unmodified. */
  function NewUUID(draw1: u64, draw2: u64): (id: UUID)
    ensures Draws(id) == (draw1, draw2)
  {
    var low, high := LittleEndian(draw1, 8), LittleEndian(draw2, 8);
    assert Pow256(8) == U64_LIMIT;
    ValueOfLittleEndian(draw1, 8);
    ValueOfLittleEndian(draw2, 8);
    assert (low + high)[..8] == low && (low + high)[8..] == high;
    low + high
  }

  /** Different draws make different identities. */
  lemma NewUUIDInjective(a1: u64, a2: u64, b1: u64, b2: u64)
    ensures NewUUID(a1, a2) == NewUUID(b1, b2) <==> a1 == b1 && a2 == b2
  {
  }

  /** `operator==` as written: `std::equal` over the range from `uuid[0]` up to, but not
      including, `uuid[15]`, so only the first fifteen bytes take part. */
  predicate EqualAsWritten(a: UUID, b: UUID): (same: bool)
    ensures same <==> a[..15] == b[..15]
  {
    forall k :: 0 <= k < 15 ==> a[k] == b[k]
  }

  /** Two identities that differ only in their last byte compare equal as written. */
  lemma EqualAsWrittenIgnoresLastByte()
    ensures var a: UUID := [0, 0, 0, 0, 0, 0, 0, 0, 0, 0, 0, 0, 0, 0, 0, 0];
            var b: UUID := [0, 0, 0, 0, 0, 0, 0, 0, 0, 0, 0, 0, 0, 0, 0, 1];
            EqualAsWritten(a, b) && a != b
  {
  }

  /** `operator==` as intended: all sixteen bytes are compared, which is exactly identity
      of the token. */
  predicate Equal(a: UUID, b: UUID): (same: bool)
    ensures same <==> a == b
  {
    forall k :: 0 <= k < UUID_BYTES ==> a[k] == b[k]
  }

  /** `operator!=`: the negation of `operator==`, so it holds exactly for different tokens. */
  predicate NotEqual(a: UUID, b: UUID): (different: bool)
    ensures different <==> !Equal(a, b)
    ensures different <==> a != b
  {
    !Equal(a, b)
  }
}
