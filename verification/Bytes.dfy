/** Little-endian numbers and writes into the middle of a byte buffer. */
module Bytes {
  import opened Prelude

  function Power256(width: nat): (p: nat)
    ensures p >= 1
  {
    if width == 0 then 1 else 256 * Power256(width - 1)
  }

  /** `to_le_bytes`: the low `width` bytes of the number, least significant first. */
  function LeBytes(value: nat, width: nat): (b: seq<u8>)
    ensures |b| == width
  {
    if width == 0 then [] else [value % 256] + LeBytes(value / 256, width - 1)
  }

  /** `from_le_bytes`. */
  function LeValue(b: seq<u8>): (value: nat)
    ensures value < Power256(|b|)
  {
    if b == [] then 0 else b[0] + 256 * LeValue(b[1..])
  }

  lemma {:induction false} LeValueOfBytes(value: nat, width: nat)
    requires value < Power256(width)
    ensures LeValue(LeBytes(value, width)) == value
  {
    if width > 0 {
      LeValueOfBytes(value / 256, width - 1);
      assert LeBytes(value, width)[1..] == LeBytes(value / 256, width - 1);
    }
  }

  lemma {:induction false} LeBytesOfValue(b: seq<u8>)
    ensures LeBytes(LeValue(b), |b|) == b
  {
    if b != [] {
      LeBytesOfValue(b[1..]);
      assert LeValue(b) % 256 == b[0] && LeValue(b) / 256 == LeValue(b[1..]);
    }
  }

  /** Eight bytes that spell a number, least significant first. */
  predicate Spells64(b: seq<u8>, n: int) {
    && |b| == 8
    && n == (b[0] as int) + 0x100 * (b[1] as int) + 0x1_0000 * (b[2] as int) + 0x100_0000 * (b[3] as int)
            + 0x1_0000_0000 * (b[4] as int) + 0x100_0000_0000 * (b[5] as int)
            + 0x1_0000_0000_0000 * (b[6] as int) + 0x100_0000_0000_0000 * (b[7] as int)
  }

  lemma {:induction false} PowerAdd(a: nat, b: nat)
    ensures Power256(a + b) == Power256(a) * Power256(b)
  {
    if a > 0 {
      PowerAdd(a - 1, b);
      assert 256 * Power256(a - 1) * Power256(b) == 256 * (Power256(a - 1) * Power256(b));
    }
  }

  lemma Widths()
    ensures Power256(2) == 0x1_0000
    ensures Power256(8) == U64_MAX + 1
    ensures Power256(32) == KEY_LIMIT
  {
    PowerAdd(2, 2);
    PowerAdd(4, 4);
    PowerAdd(8, 8);
    PowerAdd(16, 16);
  }

  function U16Bytes(n: u16): (b: seq<u8>)
    ensures |b| == 2 && ReadU16(b) == n
  {
    Widths(); LeValueOfBytes(n, 2); LeBytes(n, 2)
  }

  function U64Bytes(n: u64): (b: seq<u8>)
    ensures |b| == 8 && ReadU64(b) == n
  {
    Widths(); LeValueOfBytes(n, 8); LeBytes(n, 8)
  }

  function KeyBytes(key: Pubkey): (b: seq<u8>)
    ensures |b| == 32 && ReadKey(b) == key
  {
    Widths(); LeValueOfBytes(key, 32); LeBytes(key, 32)
  }

  function ReadU16(b: seq<u8>): (n: u16)
    requires |b| == 2
  {
    Widths(); LeValue(b)
  }

  function ReadU64(b: seq<u8>): (n: u64)
    requires |b| == 8
  {
    Widths(); LeValue(b)
  }

  function ReadKey(b: seq<u8>): (key: Pubkey)
    requires |b| == 32
  {
    Widths(); LeValue(b)
  }

  lemma ValueOfFour(b: seq<u8>)
    requires |b| == 4
    ensures LeValue(b)
         == (b[0] as int) + 0x100 * (b[1] as int) + 0x1_0000 * (b[2] as int) + 0x100_0000 * (b[3] as int)
  {
    assert b[1..][1..] == b[2..] && b[2..][1..] == b[3..] && b[3..][1..] == [];
    assert LeValue(b[3..]) == b[3];
    assert LeValue(b[2..]) == (b[2] as int) + 0x100 * (b[3] as int);
  }

  lemma {:induction false} ValueOfHalves(a: seq<u8>, b: seq<u8>)
    ensures LeValue(a + b) == LeValue(a) + Power256(|a|) * LeValue(b)
  {
    if a == [] {
      assert a + b == b;
    } else {
      ValueOfHalves(a[1..], b);
      assert (a + b)[1..] == a[1..] + b;
      Regroup(Power256(|a| - 1), LeValue(b));
      assert Power256(|a|) == 256 * Power256(|a| - 1);
      hide Power256;
      assert LeValue(a + b) == a[0] + 256 * LeValue(a[1..] + b);
    }
  }

  lemma Regroup(p: nat, v: nat)
    ensures 256 * p * v == 256 * (p * v)
  {
  }

  lemma U64BytesSpell(n: u64)
    ensures Spells64(U64Bytes(n), n)
  {
    var b := U64Bytes(n);
    assert LeValue(b) == n;
    hide U64Bytes;
    assert b == b[..4] + b[4..];
    ValueOfHalves(b[..4], b[4..]);
    ValueOfFour(b[..4]);
    ValueOfFour(b[4..]);
    assert Power256(4) == 0x1_0000_0000;
  }

  lemma U16BytesSpell(n: u16)
    ensures n == (U16Bytes(n)[0] as int) + 0x100 * (U16Bytes(n)[1] as int)
  {
    var b := U16Bytes(n);
    assert LeValue(b) == n && b[1..][1..] == [];
    assert LeValue(b[1..]) == b[1];
  }

  /** Reading loses nothing: the bytes can be written back from the number. */
  lemma ReadsAreExact(b: seq<u8>)
    ensures |b| == 2 ==> U16Bytes(ReadU16(b)) == b
    ensures |b| == 8 ==> U64Bytes(ReadU64(b)) == b
    ensures |b| == 32 ==> KeyBytes(ReadKey(b)) == b
  {
    LeBytesOfValue(b);
  }

  /** `copy_from_slice` into the bytes of `dst` that start at `at`. */
  method Store(dst: array<u8>, at: nat, part: seq<u8>)
    requires at + |part| <= dst.Length
    modifies dst
    ensures dst[..] == old(dst[..at]) + part + old(dst[at + |part|..])
  {
    for i := 0 to |part|
      invariant dst[at..at + i] == part[..i]
      invariant forall k :: 0 <= k < dst.Length && !(at <= k < at + i) ==> dst[k] == old(dst[k])
    {
      dst[at + i] := part[i];
      assert dst[at..at + i + 1] == dst[at..at + i] + [part[i]];
    }
    assert dst[..] == dst[..at] + dst[at..at + |part|] + dst[at + |part|..];
    assert dst[..at] == old(dst[..at]) && dst[at + |part|..] == old(dst[at + |part|..]);
  }

  /** The buffer, which held `was`, has been overwritten from its start with `done`. */
  ghost predicate Overwritten(now: seq<u8>, done: seq<u8>, was: seq<u8>) {
    |done| <= |was| && now == done + was[|done|..]
  }

  /** Writes the next field of a buffer that is filled from the front. */
  method Append(dst: array<u8>, at: nat, part: seq<u8>, ghost done: seq<u8>, ghost was: seq<u8>)
    requires Overwritten(dst[..], done, was) && |done| == at && at + |part| <= |was|
    modifies dst
    ensures Overwritten(dst[..], done + part, was)
  {
    Store(dst, at, part);
    assert dst[..] == done + part + was[at + |part|..];
  }
}
