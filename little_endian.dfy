/** Fixed-width little-endian packing: what pck16/pck32/pck64 and upck16/upck32/upck64 do to the values
    the jitters push and pop; the VM moves the packed bytes as given. */
module LittleEndian {
  import opened Wrappers

  newtype byte = b: int | 0 <= b < 256

  /** 256^w, the number of distinct w-byte values. */
  function Pow256(w: nat): (p: nat)
    ensures p > 0
  {
    if w == 0 then 1 else 256 * Pow256(w - 1)
  }

  lemma Pow256Widths()
    ensures Pow256(2) == 0x1_0000
    ensures Pow256(4) == 0x1_0000_0000
    ensures Pow256(8) == 0x1_0000_0000_0000_0000
  {
  }

  /** pck<8w>: the w bytes of v, least significant first. */
  function Pack(w: nat, v: nat): (b: seq<byte>)
    requires v < Pow256(w)
    ensures |b| == w
  {
    if w == 0 then [] else [(v % 256) as byte] + Pack(w - 1, v / 256)
  }

  /** The number whose little-endian bytes are b. */
  function Decode(b: seq<byte>): (v: nat)
    ensures v < Pow256(|b|)
  {
    if b == [] then 0 else b[0] as nat + 256 * Decode(b[1..])
  }

  /** upck<8w>: like struct.unpack, it refuses a buffer that is not exactly w bytes long. */
  function Unpack(w: nat, b: seq<byte>): (r: Option<nat>)
    ensures r.Some? <==> |b| == w
    ensures r.Some? ==> r.value < Pow256(w) && Pack(w, r.value) == b
  {
    if |b| == w then PackDecode(b); Some(Decode(b)) else None
  }

  /** Unpacking what was packed gives the value back. */
  lemma {:induction false} DecodePack(w: nat, v: nat)
    requires v < Pow256(w)
    ensures Decode(Pack(w, v)) == v
  {
    if w > 0 {
      DecodePack(w - 1, v / 256);
      assert Pack(w, v)[1..] == Pack(w - 1, v / 256);
    }
  }

  /** Packing what was unpacked gives the bytes back. */
  lemma {:induction false} PackDecode(b: seq<byte>)
    ensures Pack(|b|, Decode(b)) == b
  {
    if b != [] {
      PackDecode(b[1..]);
      var v := Decode(b);
      assert v % 256 == b[0] as nat;
      assert v / 256 == Decode(b[1..]);
    }
  }

  /** The encoding is injective: two values with the same bytes are equal. */
  lemma PackInjective(w: nat, u: nat, v: nat)
    requires u < Pow256(w) && v < Pow256(w) && Pack(w, u) == Pack(w, v)
    ensures u == v
  {
    DecodePack(w, u);
    DecodePack(w, v);
  }

  /** Little-endian order: the byte at position |b| weighs 256^|b|, so the last byte is the most significant. */
  lemma {:induction false} DecodeAppend(b: seq<byte>, x: byte)
    ensures Decode(b + [x]) == Decode(b) + x as nat * Pow256(|b|)
  {
    if b != [] {
      assert (b + [x])[1..] == b[1..] + [x];
      DecodeAppend(b[1..], x);
      assert (b + [x])[0] == b[0];
      ShiftProduct(x as nat, Pow256(|b| - 1));
    }
  }

  lemma ShiftProduct(x: nat, p: nat)
    ensures 256 * (x * p) == x * (256 * p)
  {
  }
}
