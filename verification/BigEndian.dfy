/** The loops that read and write integers of any number of bytes in network order. */
module BigEndian {
  import opened Bits

  type Byte = x: int | 0 <= x < 0x100

  /** The number of values of an unsigned type of `n` bytes. */
  function Range(n: nat): (r: nat)
    ensures r > 0
  {
    if n == 0 then 1 else 0x100 * Range(n - 1)
  }

  /** The number that a byte string denotes, most significant byte first. */
  function Value(bytes: seq<Byte>): nat {
    if bytes == [] then 0
    else Value(bytes[..|bytes| - 1]) * 0x100 + bytes[|bytes| - 1]
  }

  /** The last `n` bytes of a number's representation. */
  function Digits(v: nat, n: nat): (r: seq<Byte>)
    ensures |r| == n
  {
    if n == 0 then [] else Digits(v / 0x100, n - 1) + [v % 0x100]
  }

  lemma {:induction false} ValueInRange(bytes: seq<Byte>)
    ensures Value(bytes) < Range(|bytes|)
  {
    if bytes != [] {
      ValueInRange(bytes[..|bytes| - 1]);
    }
  }

  /** Network order: the first byte is the most significant one. */
  lemma {:induction false} FirstByteLeads(b: Byte, rest: seq<Byte>)
    ensures Value([b] + rest) == b * Range(|rest|) + Value(rest)
  {
    var bytes, n := [b] + rest, |rest|;
    if n == 0 {
      assert bytes == [b] && bytes[..0] == [];
    } else {
      assert bytes[..n] == [b] + rest[..n - 1] && bytes[n] == rest[n - 1];
      FirstByteLeads(b, rest[..n - 1]);
    }
  }

  /** Writing, then reading, gives the number back. */
  lemma {:induction false} ValueOfDigits(v: nat, n: nat)
    requires v < Range(n)
    ensures Value(Digits(v, n)) == v
  {
    if n > 0 {
      assert v / 0x100 < Range(n - 1);
      ValueOfDigits(v / 0x100, n - 1);
      assert Digits(v, n)[..n - 1] == Digits(v / 0x100, n - 1);
    }
  }

  /** Reading, then writing, gives the bytes back. */
  lemma {:induction false} DigitsOfValue(bytes: seq<Byte>)
    ensures Digits(Value(bytes), |bytes|) == bytes
  {
    if bytes != [] {
      var n := |bytes| - 1;
      DigitsOfValue(bytes[..n]);
      assert bytes == bytes[..n] + [bytes[n]];
    }
  }

  // ---------- The loops ----------

  /** `ReadBigEndian` up to the final conversion: shifts are taken modulo the range of the type. */
  method ReadUnsigned(buf: array<Byte>, size: nat) returns (r: nat)
    requires 0 < size <= buf.Length
    ensures r == Value(buf[..size])
  {
    r := buf[0];
    assert buf[..1] == [buf[0]] && buf[..1][..0] == [];
    assert Value(buf[..1]) == Value(buf[..1][..0]) * 0x100 + buf[0];
    var i := 1;
    while i < size
      invariant 1 <= i <= size
      invariant r == Value(buf[..i])
    {
      ghost var before := r;
      ValueInRange(buf[..i]);
      RangeMonotone(i + 1, size);
      r := (r * 0x100) % Range(size);
      ModUnique(before * 0x100, Range(size), 0, before * 0x100);
      OrByte(before, buf[i]);
      r := Or(r, buf[i]);
      assert buf[..i + 1][..i] == buf[..i];
      i := i + 1;
    }
  }

  lemma {:induction false} RangeMonotone(a: nat, b: nat)
    requires a <= b
    ensures Range(a) <= Range(b)
  {
    if a < b {
      RangeMonotone(a, b - 1);
    }
  }

  lemma {:induction false} OrByte(high: nat, b: Byte)
    ensures Or(high * 0x100, b) == high * 0x100 + b
  {
    assert Pow2(8) == 0x100;
    OrDisjoint(high * 0x100, b, 8);
  }

  lemma {:induction false} LowByte(v: nat)
    ensures And(v, 0xFF) == v % 0x100
  {
    assert Pow2(8) == 0x100;
    AndLowMask(v, 8);
  }

  /** `WriteBigEndian` after the initial conversion: the last byte first. */
  method WriteUnsigned(buf: array<Byte>, val: nat, size: nat)
    requires size <= buf.Length
    modifies buf
    ensures buf[..size] == Digits(val, size)
    ensures buf[size..] == old(buf[size..])
  {
    var v := val;
    for i := 0 to size
      invariant Digits(val, size) == Digits(v, size - i) + buf[size - i..size]
      invariant buf[size..] == old(buf[size..])
    {
      LowByte(v);
      ghost var done := buf[size - i..size];
      buf[size - i - 1] := And(v, 0xFF);
      assert buf[size - i - 1..size] == [v % 0x100] + done;
      v := v / 0x100;
    }
  }

  // ---------- Signed types ----------

  ghost predicate InSignedRange(v: int, size: nat) {
    0 - Range(size) <= 2 * v < Range(size)
  }

  /** The conversion to the unsigned version of a type. */
  function ToUnsigned(v: int, size: nat): (u: nat)
    ensures u < Range(size)
  {
    v % Range(size)
  }

  function ToSigned(u: nat, size: nat): int {
    if 2 * u >= Range(size) then u - Range(size) else u
  }

  lemma {:induction false} SignedUnsigned(v: int, size: nat)
    requires InSignedRange(v, size)
    ensures ToSigned(ToUnsigned(v, size), size) == v
  {
    if v >= 0 {
      ModUnique(v, Range(size), 0, v);
    } else {
      ModUnique(v, Range(size), -1, v + Range(size));
    }
  }

  /** A value of a signed or unsigned type, written and read back. */
  method WriteThenRead(buf: array<Byte>, val: int, size: nat, signed: bool) returns (r: int)
    requires 0 < size <= buf.Length
    requires if signed then InSignedRange(val, size) else 0 <= val < Range(size)
    modifies buf
    ensures r == val
  {
    WriteUnsigned(buf, ToUnsigned(val, size), size);
    ValueOfDigits(ToUnsigned(val, size), size);
    var u := ReadUnsigned(buf, size);
    if signed {
      SignedUnsigned(val, size);
      r := ToSigned(u, size);
    } else {
      ModUnique(val, Range(size), 0, val);
      r := u;
    }
  }

  /** Bytes read as a value and written again are left as they were. */
  method ReadThenWrite(buf: array<Byte>, size: nat, signed: bool)
    requires 0 < size <= buf.Length
    modifies buf
    ensures buf[..] == old(buf[..])
  {
    ghost var bytes := buf[..size];
    var u := ReadUnsigned(buf, size);
    ValueInRange(bytes);
    DigitsOfValue(bytes);
    var val := if signed then ToSigned(u, size) else u;
    assert ToUnsigned(val, size) == u by {
      ModUnique(val, Range(size), if val == u then 0 else -1, u);
    }
    WriteUnsigned(buf, ToUnsigned(val, size), size);
    assert buf[..] == buf[..size] + buf[size..] && old(buf[..]) == old(buf[..size]) + old(buf[size..]);
  }
}
