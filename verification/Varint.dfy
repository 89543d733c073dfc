/**
 Base-128 varints (section "Base 128 Varints" of the Protocol Buffers encoding),
 as written by `appendVarint` and read by `consumeVarint`.

 Shifts and masks are written arithmetically: `byte(v)|0x80` is `v % 0x80 + 0x80`,
 `v >>= 7` is `v / 0x80`, and or-ing a group into bits that are still clear is an
 addition modulo 2^64. Module `BitTricks` justifies this on bit vectors.
 */
module Varint {

  const WORD: int := 0x1_0000_0000_0000_0000

  type Byte = b: int | 0 <= b < 0x100

  /** A Go `uint64`. */
  type Word = w: int | 0 <= w < 0x1_0000_0000_0000_0000

  const MAX_BYTES := 10

  datatype Consumed = Malformed | Consumed(value: Word, n: nat)

  function Pow128(i: nat): (p: nat)
    ensures p >= 1
  {
    if i == 0 then 1 else 0x80 * Pow128(i - 1)
  }

  function Encode(v: nat): (r: seq<Byte>)
    ensures r != []
    decreases v
  {
    if v < 0x80 then [v] else [v % 0x80 + 0x80] + Encode(v / 0x80)
  }

  /** The number that a run of bytes spells in base 128, least significant group first. */
  function GroupValue(raw: seq<Byte>): nat {
    if raw == [] then 0 else raw[0] % 0x80 + 0x80 * GroupValue(raw[1..])
  }

  /** The first n bytes of raw are exactly one varint: only the last one is below 0x80. */
  predicate IsVarint(raw: seq<Byte>, n: nat) {
    && 1 <= n <= MAX_BYTES && n <= |raw|
    && raw[n - 1] < 0x80
    && forall j :: 0 <= j < n - 1 ==> raw[j] >= 0x80
  }

  /** Index just past the first byte below 0x80 at or after i, or -1 when the ten-byte budget or the input ends first. */
  function Terminator(raw: seq<Byte>, i: nat): (n: int)
    requires i <= |raw| && i <= MAX_BYTES
    ensures n == -1 || (i < n <= |raw| && n <= MAX_BYTES && raw[n - 1] < 0x80)
    ensures forall j :: i <= j < (if n == -1 then |raw| else n - 1) && j < MAX_BYTES ==> raw[j] >= 0x80
    decreases |raw| - i
  {
    if i == |raw| || i == MAX_BYTES then -1
    else if raw[i] < 0x80 then i + 1
    else Terminator(raw, i + 1)
  }

  function Consume(raw: seq<Byte>): (c: Consumed)
    ensures c.Consumed? ==> IsVarint(raw, c.n)
  {
    var n := Terminator(raw, 0);
    if n == -1 then Malformed else Consumed(GroupValue(raw[..n]) % WORD, n)
  }

  /** Reading fails exactly on inputs with no varint in front, and otherwise the varint and its value are determined. */
  lemma ConsumeMeaning(raw: seq<Byte>, n: nat)
    requires IsVarint(raw, n)
    ensures Consume(raw) == Consumed(GroupValue(raw[..n]) % WORD, n)
  {
    assert Terminator(raw, 0) == n;
  }

  lemma {:induction false} GroupValueAppend(raw: seq<Byte>, b: Byte)
    ensures GroupValue(raw + [b]) == GroupValue(raw) + (b % 0x80) * Pow128(|raw|)
  {
    if raw == [] {
      assert [b][1..] == [];
    } else {
      GroupValueAppend(raw[1..], b);
      assert (raw + [b])[1..] == raw[1..] + [b];
      GroupShift(GroupValue(raw[1..]), b % 0x80, Pow128(|raw| - 1));
    }
  }

  lemma GroupShift(x: int, b: int, p: int)
    ensures 0x80 * (x + b * p) == 0x80 * x + b * (0x80 * p)
  {
  }

  lemma {:induction false} GroupValueBound(raw: seq<Byte>)
    ensures GroupValue(raw) < Pow128(|raw|)
  {
    if raw != [] {
      GroupValueBound(raw[1..]);
    }
  }

  lemma {:induction false} EncodeShape(v: nat)
    ensures var e := Encode(v);
            && e[|e| - 1] < 0x80
            && (forall j :: 0 <= j < |e| - 1 ==> e[j] >= 0x80)
            && GroupValue(e) == v
    decreases v
  {
    if v < 0x80 {
      assert Encode(v)[1..] == [];
    } else {
      EncodeShape(v / 0x80);
      assert Encode(v)[1..] == Encode(v / 0x80);
    }
  }

  lemma {:induction false} EncodeLength(v: nat, k: nat)
    requires k >= 1 && v < Pow128(k)
    ensures |Encode(v)| <= k
    decreases k
  {
    if v >= 0x80 {
      assert Pow128(1) == 0x80 * Pow128(0);
      EncodeLength(v / 0x80, k - 1);
    }
  }

  lemma WordFitsTenGroups()
    ensures WORD <= Pow128(MAX_BYTES)
  {
    assert Pow128(5) == 0x8_0000_0000 by {
      assert Pow128(2) == 0x4000 && Pow128(4) == 0x1000_0000;
    }
    assert Pow128(7) == 0x2_0000_0000_0000;
    assert Pow128(9) == 0x8000_0000_0000_0000;
  }

  /** Reading back what was written, whatever follows it. */
  lemma RoundTrip(v: Word, rest: seq<Byte>)
    ensures |Encode(v)| <= MAX_BYTES
    ensures Consume(Encode(v) + rest) == Consumed(v, |Encode(v)|)
  {
    WordFitsTenGroups();
    EncodeLength(v, MAX_BYTES);
    EncodeShape(v);
    var e := Encode(v);
    ConsumeMeaning(e + rest, |e|);
    assert (e + rest)[..|e|] == e;
  }

  /** Appending bytes never changes what an accepted input decodes to. */
  lemma ConsumePrefix(raw: seq<Byte>, rest: seq<Byte>)
    requires Consume(raw).Consumed?
    ensures Consume(raw + rest) == Consume(raw)
  {
    var n := Consume(raw).n;
    ConsumeMeaning(raw, n);
    ConsumeMeaning(raw + rest, n);
    assert (raw + rest)[..n] == raw[..n];
  }

  /** The writer's form is the shortest of all the byte strings the reader accepts for a value. */
  lemma EncodeIsShortest(raw: seq<Byte>)
    requires Consume(raw).Consumed?
    ensures |Encode(Consume(raw).value)| <= Consume(raw).n
  {
    var n := Consume(raw).n;
    ConsumeMeaning(raw, n);
    GroupValueBound(raw[..n]);
    EncodeLength(Consume(raw).value, n);
  }

  method AppendVarint(out: seq<Byte>, v: Word) returns (r: seq<Byte>)
    ensures r == out + Encode(v)
  {
    var rest := v;
    r := out;
    while rest >= 0x80
      invariant 0 <= rest < WORD
      invariant r + Encode(rest) == out + Encode(v)
    {
      r := r + [rest % 0x80 + 0x80];
      rest := rest / 0x80;
    }
    r := r + [rest];
  }

  lemma NoTerminator(raw: seq<Byte>, i: nat)
    requires i <= |raw| && (i == |raw| || i == MAX_BYTES)
    requires forall j :: 0 <= j < i ==> raw[j] >= 0x80
    ensures forall k :: !IsVarint(raw, k)
    ensures i <= MAX_BYTES ==> Consume(raw) == Malformed
  {
    forall k ensures !IsVarint(raw, k) {
      if IsVarint(raw, k) {
        assert false;
      }
    }
  }

  lemma ModSum(a: nat, x: nat)
    ensures (a % WORD + x) % WORD == (a + x) % WORD
  {
    assert a == a / WORD * WORD + a % WORD;
    assert (a + x) - (a % WORD + x) == a / WORD * WORD;
  }

  lemma OrGroup(raw: seq<Byte>, i: nat)
    requires i < |raw|
    ensures (GroupValue(raw[..i]) % WORD + (raw[i] % 0x80) * Pow128(i)) % WORD == GroupValue(raw[..i + 1]) % WORD
  {
    assert raw[..i + 1] == raw[..i] + [raw[i]];
    GroupValueAppend(raw[..i], raw[i]);
    ModSum(GroupValue(raw[..i]), (raw[i] % 0x80) * Pow128(i));
  }

  /** Returns (0, -1) on a malformed input, as the source does. */
  method ConsumeVarint(raw: seq<Byte>) returns (value: Word, n: int)
    ensures n == -1 ==> value == 0 && forall k :: !IsVarint(raw, k)
    ensures n != -1 ==> n >= 1 && IsVarint(raw, n) && value == GroupValue(raw[..n]) % WORD
    ensures Consume(raw) == if n == -1 then Malformed else Consumed(value, n)
  {
    value := 0;
    var i := 0;
    while i < |raw|
      invariant 0 <= i <= |raw| && i <= MAX_BYTES
      invariant value == GroupValue(raw[..i]) % WORD
      invariant forall j :: 0 <= j < i ==> raw[j] >= 0x80
    {
      if i == MAX_BYTES {
        NoTerminator(raw, i);
        return 0, -1;
      }
      var b := raw[i];
      OrGroup(raw, i);
      value := (value + (b % 0x80) * Pow128(i)) % WORD;
      if b < 0x80 {
        ConsumeMeaning(raw, i + 1);
        return value, i + 1;
      }
      i := i + 1;
    }
    NoTerminator(raw, i);
    value, n := 0, -1;
  }

  /** No varint is longer than ten bytes, and a shorter input has to end with its last byte. */
  lemma NoneIfUnended(raw: seq<Byte>)
    requires forall j :: 0 <= j < |raw| && j < 10 ==> raw[j] >= 0x80
    ensures Consume(raw) == Malformed
  {
  }
}
