/** The packed words of the physical frame allocator: the 32-bit level-2 word of
    a group (13 bits of free count, one owner bit, eight plugged bits) and the
    16-bit reverse-map entry of a slot. */
module FrameWord {

  const CHUNK_SIZE := 512
  const GROUP_SIZE := 8
  const SUPER_GROUP_SIZE := 4096
  const SLOTS := 32768
  /** One more than the largest value of the 13-bit free field. */
  const FREE_LIMIT := 8192

  /** The fields of a level-2 word. */
  datatype L2Word = L2Word(free: nat, owned: bool, plugged: seq<bool>)

  ghost predicate Fits(w: L2Word) {
    w.free < FREE_LIMIT && |w.plugged| == GROUP_SIZE
  }

  /** Bits of a mask, least significant first. */
  function EncodeMask(m: seq<bool>): (n: nat)
  {
    if m == [] then 0 else (if m[0] then 1 else 0) + 2 * EncodeMask(m[1..])
  }

  function DecodeMask(n: nat, k: nat): (m: seq<bool>)
    ensures |m| == k
  {
    if k == 0 then [] else [n % 2 == 1] + DecodeMask(n / 2, k - 1)
  }

  function Pow2(k: nat): (n: nat)
    ensures n >= 1
  {
    if k == 0 then 1 else 2 * Pow2(k - 1)
  }

  lemma {:induction false} MaskRoundTrip(m: seq<bool>)
    ensures DecodeMask(EncodeMask(m), |m|) == m
    ensures EncodeMask(m) < Pow2(|m|)
  {
    if m != [] {
      MaskRoundTrip(m[1..]);
      assert EncodeMask(m) / 2 == EncodeMask(m[1..]);
    }
  }

  lemma Pow2Of8()
    ensures Pow2(8) == 256
  {
    assert Pow2(4) == 16;
    assert Pow2(6) == 64;
  }

  /** The packed word: bits 0..13 free, bit 13 owner, bits 14..22 plugged. */
  function Pack(w: L2Word): (n: nat)
  {
    w.free + (if w.owned then 8192 else 0) + 16384 * EncodeMask(w.plugged)
  }

  function FreeBits(n: nat): (r: nat) { n % 8192 }
  predicate OwnedBit(n: nat) { n / 8192 % 2 == 1 }
  function PluggedBits(n: nat): (r: seq<bool>) { DecodeMask(n / 16384 % 256, 8) }

  /** Reading the three fields of a packed word gives back what was packed, and
      the word stays within 32 bits. */
  lemma PackRoundTrip(w: L2Word)
    requires Fits(w)
    ensures FreeBits(Pack(w)) == w.free
    ensures OwnedBit(Pack(w)) == w.owned
    ensures PluggedBits(Pack(w)) == w.plugged
    ensures Pack(w) < 0x1_0000_0000
  {
    MaskRoundTrip(w.plugged);
    Pow2Of8();
    var m := EncodeMask(w.plugged);
    assert Pack(w) == (w.free + (if w.owned then 8192 else 0)) + 16384 * m;
    assert Pack(w) / 16384 == m;
    assert m % 256 == m;
    assert Pack(w) / 8192 == (if w.owned then 1 else 0) + 2 * m;
  }

  /** The unmasked `fetch_add(1)` adds to the free field alone exactly when the
      field is not already at its largest value; at that value the carry leaves
      the field and flips the owner bit. */
  lemma FetchAddCarry(w: L2Word)
    requires Fits(w)
    ensures w.free + 1 < FREE_LIMIT ==> Pack(w) + 1 == Pack(w.(free := w.free + 1))
    ensures w.free + 1 == FREE_LIMIT ==> OwnedBit(Pack(w) + 1) != w.owned
  {
    PackRoundTrip(w);
    if w.free + 1 == FREE_LIMIT {
      assert (Pack(w) + 1) / 8192 == Pack(w) / 8192 + 1;
    }
  }

  /** `fetch_and` with the complement of the free field zeroes that field alone. */
  lemma ClearFreeField(w: L2Word)
    requires Fits(w)
    ensures Pack(w) - FreeBits(Pack(w)) == Pack(w.(free := 0))
  {
    PackRoundTrip(w);
  }

  /** A reverse-map entry: chunk index in the low 3 bits, group index above. */
  function PackLocation(group: nat, chunk: nat): (n: nat)
  {
    chunk + 8 * group
  }

  function ChunkBits(n: nat): (r: nat) { n % 8 }
  function GroupBits(n: nat): (r: nat) { n / 8 % 4096 }

  /** Each (group, chunk) pair fits in 16 bits and is read back unchanged; hence
      no two chunks share an encoding. */
  lemma LocationRoundTrip(group: nat, chunk: nat)
    requires group < SUPER_GROUP_SIZE && chunk < GROUP_SIZE
    ensures GroupBits(PackLocation(group, chunk)) == group
    ensures ChunkBits(PackLocation(group, chunk)) == chunk
    ensures PackLocation(group, chunk) < 0x1_0000
  {
    assert PackLocation(group, chunk) / 8 == group;
  }
}
