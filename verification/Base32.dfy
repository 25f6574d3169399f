/**
 Unpadded base32 in groups of four, as a registration code is shown. The encoder runs
 a small bit buffer; it is proved against the definition of section 6 of RFC 4648, the
 input's bits cut into fives, and against a decoder.
 */
module Base32 {
  import opened Common

  const ALPHABET := "ABCDEFGHIJKLMNOPQRSTUVWXYZ234567"

  // ---- bits ----

  /** The `w` lowest bits of `v`, highest first. */
  function Bits(v: nat, w: nat): (s: seq<bool>)
    ensures |s| == w
  {
    if w == 0 then [] else Bits(v / 2, w - 1) + [v % 2 == 1]
  }

  function Zeros(n: nat): (s: seq<bool>)
    ensures |s| == n && forall i :: 0 <= i < n ==> !s[i]
  {
    seq(n, _ => false)
  }

  function BytesBits(s: Bytes): (r: seq<bool>)
    ensures |r| == 8 * |s|
  {
    if s == [] then [] else BytesBits(s[..|s| - 1]) + Bits(s[|s| - 1] as nat, 8)
  }

  function QuintetBits(s: seq<nat>): (r: seq<bool>)
    ensures |r| == 5 * |s|
  {
    if s == [] then [] else QuintetBits(s[..|s| - 1]) + Bits(s[|s| - 1], 5)
  }

  lemma Halved(v: nat, tp: nat, low: nat)
    requires v == 2 * tp + low
    ensures v / 2 == tp + low / 2 && v % 2 == low % 2
  {}

  /** The bits of a value put together of a top and `lo` low bits. */
  lemma {:induction false} BitsJoin(v: nat, top: nat, low: nat, hi: nat, lo: nat)
    requires low < Pow2(lo) && v == top * Pow2(lo) + low
    ensures Bits(v, hi + lo) == Bits(top, hi) + Bits(low, lo)
    decreases lo
  {
    if lo == 0 {
      assert v == top;
    } else {
      var tp := top * Pow2(lo - 1);
      assert v == 2 * tp + low;
      Halved(v, tp, low);
      BitsJoin(v / 2, top, low / 2, hi, lo - 1);
      assert Bits(v, hi + lo) == (Bits(top, hi) + Bits(low / 2, lo - 1)) + [v % 2 == 1];
    }
  }

  lemma Divided(v: nat, k: nat) returns (q: nat, r: nat)
    requires k > 0
    ensures q == v / k && r == v % k && v == q * k + r && r < k
  {
    q, r := v / k, v % k;
  }

  /** Bits above the width do not show. */
  lemma BitsOfRemainder(v: nat, w: nat)
    ensures Bits(v % Pow2(w), w) == Bits(v, w)
  {
    var q, r := Divided(v, Pow2(w));
    BitsJoin(v, q, r, 0, w);
    assert Bits(q, 0) + Bits(r, w) == Bits(r, w);
  }

  lemma {:induction false} NoBits(k: nat)
    ensures Bits(0, k) == Zeros(k)
  {
    if k > 0 {
      NoBits(k - 1);
      assert Zeros(k) == Zeros(k - 1) + [false];
    }
  }

  // ---- the encoder ----

  predicate Small(quintets: seq<nat>) { forall i :: 0 <= i < |quintets| ==> quintets[i] < 32 }

  /** The quintets are the bytes' bits with zeros behind them to fill the last. */
  ghost predicate Encodes(input: Bytes, quintets: seq<nat>) {
    && Small(quintets)
    && 8 * |input| <= 5 * |quintets| < 8 * |input| + 5
    && QuintetBits(quintets) == BytesBits(input) + Zeros(5 * |quintets| - 8 * |input|)
  }

  /** The buffer's loop state: what is out and what is pending are the bits read. */
  ghost predicate Buffered(input: Bytes, out: seq<nat>, buf: nat, bits: nat) {
    && Small(out)
    && QuintetBits(out) + Bits(buf, bits) == BytesBits(input)
  }

  lemma ByteJoined(buf: nat, bits: nat, byte: nat)
    requires byte < 256
    ensures Bits(buf * 256 + byte, bits + 8) == Bits(buf, bits) + Bits(byte, 8)
  {
    assert Pow2(8) == 256;
    BitsJoin(buf * 256 + byte, buf, byte, bits, 8);
  }

  lemma ByteLast(input: Bytes, byte: Byte)
    ensures BytesBits(input + [byte]) == BytesBits(input) + Bits(byte as nat, 8)
  {}

  lemma Regroup(a: seq<bool>, b: seq<bool>, c: seq<bool>)
    ensures a + (b + c) == (a + b) + c
  {}

  lemma Pushed(input: Bytes, out: seq<nat>, buf: nat, bits: nat, byte: Byte)
    requires Buffered(input, out, buf, bits)
    ensures Buffered(input + [byte], out, buf * 256 + byte as nat, bits + 8)
  {
    ByteJoined(buf, bits, byte as nat);
    ByteLast(input, byte);
    Regroup(QuintetBits(out), Bits(buf, bits), Bits(byte as nat, 8));
  }

  lemma TopQuintet(buf: nat, bits: nat)
    ensures Bits(buf, bits + 5) == Bits(buf / Pow2(bits) % 32, 5) + Bits(buf, bits)
  {
    assert Pow2(5) == 32;
    var q, r := Divided(buf, Pow2(bits));
    BitsJoin(buf, q, r, 5, bits);
    BitsOfRemainder(buf, bits);
    BitsOfRemainder(q, 5);
  }

  lemma QuintetLast(out: seq<nat>, idx: nat, rest: seq<bool>)
    ensures QuintetBits(out + [idx]) + rest == QuintetBits(out) + (Bits(idx, 5) + rest)
  {}

  lemma Emitted(input: Bytes, out: seq<nat>, buf: nat, bits: nat, idx: nat)
    requires Buffered(input, out, buf, bits + 5) && idx == buf / Pow2(bits) % 32
    ensures Buffered(input, out + [idx], buf, bits)
  {
    TopQuintet(buf, bits);
    QuintetLast(out, idx, Bits(buf, bits));
  }

  lemma Masked(input: Bytes, out: seq<nat>, buf: nat, bits: nat)
    requires Buffered(input, out, buf, bits)
    ensures Buffered(input, out, buf % Pow2(bits), bits)
  {
    BitsOfRemainder(buf, bits);
  }

  lemma LastQuintet(buf: nat, bits: nat)
    requires 0 < bits < 5
    ensures Bits(buf * Pow2(5 - bits) % 32, 5) == Bits(buf, bits) + Zeros(5 - bits)
  {
    assert Pow2(5) == 32;
    BitsJoin(buf * Pow2(5 - bits), buf, 0, bits, 5 - bits);
    NoBits(5 - bits);
    BitsOfRemainder(buf * Pow2(5 - bits), 5);
  }

  lemma Finished(input: Bytes, out: seq<nat>, buf: nat, bits: nat, idx: nat)
    requires Buffered(input, out, buf, bits) && 0 < bits < 5 && idx == buf * Pow2(5 - bits) % 32
    ensures Encodes(input, out + [idx])
  {
    LastQuintet(buf, bits);
    QuintetLast(out, idx, []);
    assert |BytesBits(input)| == 5 * |out| + bits;
    assert QuintetBits(out + [idx]) + [] == QuintetBits(out + [idx]);
    assert QuintetBits(out) + (Bits(buf, bits) + Zeros(5 - bits)) == (QuintetBits(out) + Bits(buf, bits)) + Zeros(5 - bits);
  }

  /** One byte into the buffer and every whole quintet out of it. Fewer than five bits stay. */
  method PushByte(ghost input: Bytes, quintets: seq<nat>, pending: nat, held: nat, byte: Byte) returns (out: seq<nat>, buf: nat, bits: nat)
    requires Buffered(input, quintets, pending, held) && held < 5 && pending < Pow2(held)
    ensures Buffered(input + [byte], out, buf, bits) && bits < 5 && buf < Pow2(bits)
  {
    buf := pending * 256 + byte as nat;
    Pushed(input, quintets, pending, held, byte);
    out, bits := Drain(input + [byte], quintets, buf, held + 8);
    buf := Mask(input + [byte], out, buf, bits);
  }

  method Mask(ghost input: Bytes, ghost out: seq<nat>, buf: nat, bits: nat) returns (low: nat)
    requires Buffered(input, out, buf, bits)
    ensures Buffered(input, out, low, bits) && low < Pow2(bits)
  {
    Masked(input, out, buf, bits);
    low := buf % Pow2(bits);
  }

  method Drain(ghost input: Bytes, quintets: seq<nat>, buf: nat, held: nat) returns (out: seq<nat>, bits: nat)
    requires Buffered(input, quintets, buf, held)
    ensures Buffered(input, out, buf, bits) && bits < 5
  {
    out, bits := quintets, held;
    while bits >= 5
      invariant Buffered(input, out, buf, bits)
      decreases bits
    {
      bits := bits - 5;
      var idx := buf / Pow2(bits) % 32;
      Emitted(input, out, buf, bits, idx);
      out := out + [idx];
    }
  }

  method Quintets(input: Bytes) returns (out: seq<nat>)
    ensures Encodes(input, out)
  {
    out := [];
    var buf: nat, bits: nat := 0, 0;
    for i := 0 to |input|
      invariant Buffered(input[..i], out, buf, bits) && bits < 5 && buf < Pow2(bits)
    {
      assert input[..i + 1] == input[..i] + [input[i]];
      out, buf, bits := PushByte(input[..i], out, buf, bits, input[i]);
    }
    assert input[..|input|] == input;
    if bits > 0 {
      var idx := buf * Pow2(5 - bits) % 32;
      Finished(input, out, buf, bits, idx);
      out := out + [idx];
    } else {
      assert Zeros(0) == [];
      assert QuintetBits(out) + [] == QuintetBits(out);
    }
  }

  function Letters(quintets: seq<nat>): (s: string)
    requires Small(quintets)
    ensures |s| == |quintets| && forall i :: 0 <= i < |s| ==> s[i] == ALPHABET[quintets[i]]
  {
    seq(|quintets|, i requires 0 <= i < |quintets| => ALPHABET[quintets[i]])
  }

  /** The display form: groups of four with a dash between. */
  function Grouped(s: string): string
    decreases |s|
  {
    if |s| <= 4 then s else s[..4] + "-" + Grouped(s[4..])
  }

  method Base32Groups(input: Bytes) returns (r: string)
    ensures exists quintets :: Encodes(input, quintets) && r == Grouped(Letters(quintets))
  {
    var quintets := Quintets(input);
    r := Grouped(Letters(quintets));
  }

  // ---- the decoder ----

  function Number(s: seq<bool>): nat { if s == [] then 0 else 2 * Number(s[..|s| - 1]) + if s[|s| - 1] then 1 else 0 }

  lemma {:induction false} NumberOfBits(v: nat, w: nat)
    requires v < Pow2(w)
    ensures Number(Bits(v, w)) == v
    decreases w
  {
    if w > 0 {
      NumberOfBits(v / 2, w - 1);
      assert Bits(v, w)[..w - 1] == Bits(v / 2, w - 1);
    }
  }

  lemma {:induction false} NumberBound(s: seq<bool>)
    ensures Number(s) < Pow2(|s|)
    decreases |s|
  {
    if s != [] {
      NumberBound(s[..|s| - 1]);
    }
  }

  /** Whole bytes from the front, what is left over dropped. */
  function ToBytes(s: seq<bool>): Bytes
    decreases |s|
  {
    if |s| < 8 then []
    else
      NumberBound(s[..8]);
      assert Pow2(8) == 256;
      [Number(s[..8]) as Byte] + ToBytes(s[8..])
  }

  lemma {:induction false} BytesBitsFirst(input: Bytes)
    requires input != []
    ensures BytesBits(input) == Bits(input[0] as nat, 8) + BytesBits(input[1..])
    decreases |input|
  {
    var n := |input| - 1;
    if n == 0 {
      assert input[..0] == [] && input[1..] == [];
      assert Bits(input[0] as nat, 8) + [] == Bits(input[0] as nat, 8);
    } else {
      BytesBitsFirst(input[..n]);
      assert input[..n][0] == input[0] && input[..n][1..] == input[1..][..n - 1];
      var first, middle, last := Bits(input[0] as nat, 8), BytesBits(input[..n][1..]), Bits(input[n] as nat, 8);
      assert input[1..][n - 1] == input[n];
      assert (first + middle) + last == first + (middle + last);
    }
  }

  lemma {:induction false} BytesComeBack(input: Bytes, pad: nat)
    requires pad < 8
    ensures ToBytes(BytesBits(input) + Zeros(pad)) == input
    decreases |input|
  {
    var s := BytesBits(input) + Zeros(pad);
    if input != [] {
      BytesBitsFirst(input);
      var first := Bits(input[0] as nat, 8);
      assert s == first + (BytesBits(input[1..]) + Zeros(pad));
      assert s[..8] == first && s[8..] == BytesBits(input[1..]) + Zeros(pad);
      assert Pow2(8) == 256;
      NumberOfBits(input[0] as nat, 8);
      BytesComeBack(input[1..], pad);
    }
  }

  function IndexOf(c: char): nat {
    if 'A' <= c <= 'Z' then c as nat - 'A' as nat
    else if '2' <= c <= '7' then 26 + (c as nat - '2' as nat)
    else 0
  }

  lemma LetterIndex(q: nat)
    requires q < 32
    ensures IndexOf(ALPHABET[q]) == q && ALPHABET[q] != '-'
  {}

  function Undashed(s: string): string
    decreases |s|
  {
    if s == [] then [] else (if s[0] == '-' then [] else [s[0]]) + Undashed(s[1..])
  }

  function Indices(s: string): seq<nat> { seq(|s|, i requires 0 <= i < |s| => IndexOf(s[i])) }

  function Decode(s: string): Bytes { ToBytes(QuintetBits(Indices(Undashed(s)))) }

  lemma {:induction false} UndashedConcat(a: string, b: string)
    ensures Undashed(a + b) == Undashed(a) + Undashed(b)
    decreases |a|
  {
    if a == [] {
      assert a + b == b;
    } else {
      assert (a + b)[1..] == a[1..] + b;
      UndashedConcat(a[1..], b);
    }
  }

  lemma {:induction false} UndashedPlain(s: string)
    requires '-' !in s
    ensures Undashed(s) == s
    decreases |s|
  {
    if s != [] {
      UndashedPlain(s[1..]);
    }
  }

  lemma {:induction false} GroupsComeApart(s: string)
    requires '-' !in s
    ensures Undashed(Grouped(s)) == s
    decreases |s|
  {
    if |s| <= 4 {
      UndashedPlain(s);
    } else {
      UndashedConcat(s[..4] + "-", Grouped(s[4..]));
      UndashedConcat(s[..4], "-");
      UndashedPlain(s[..4]);
      GroupsComeApart(s[4..]);
      assert Undashed("-") == [] by {
        assert "-"[1..] == [];
      }
      assert s[..4] + s[4..] == s;
    }
  }

  /** Fours between the dashes, only the last group shorter. */
  lemma {:induction false} GroupsOfFour(s: string, i: nat)
    ensures |Grouped(s)| == |s| + (if |s| == 0 then 0 else (|s| - 1) / 4)
    ensures '-' !in s && i < |Grouped(s)| ==> (Grouped(s)[i] == '-' <==> i % 5 == 4)
    decreases |s|
  {
    if |s| > 4 {
      GroupsOfFour(s[4..], if i < 5 then 0 else i - 5);
      if i >= 5 && i < |Grouped(s)| {
        assert Grouped(s)[i] == Grouped(s[4..])[i - 5];
        assert '-' !in s ==> '-' !in s[4..];
      }
    }
  }

  /**
   For every byte string the display form is the unpadded encoding: as many characters as
   fives of bits, rounded up, and decoding it gives the bytes back.
   */
  lemma RoundTrip(input: Bytes, quintets: seq<nat>)
    requires Encodes(input, quintets)
    ensures |quintets| == (8 * |input| + 4) / 5
    ensures Undashed(Grouped(Letters(quintets))) == Letters(quintets)
    ensures Decode(Grouped(Letters(quintets))) == input
  {
    var s := Letters(quintets);
    forall i | 0 <= i < |s| ensures s[i] != '-' && IndexOf(s[i]) == quintets[i] {
      LetterIndex(quintets[i]);
    }
    GroupsComeApart(s);
    assert Indices(s) == quintets;
    BytesComeBack(input, 5 * |quintets| - 8 * |input|);
  }
}
