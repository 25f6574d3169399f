/** The storage spelling of a writer, and its parser. */
module WriterNames {
  import opened Common

  /** Who a write is sent as: an enrolled device, or a number the server counts by. */
  datatype WriterRef = Device(key: Digest) | Number(number: U64)

  const HEX: string := "0123456789abcdef"

  function HexDigit(c: char): Option<nat> {
    if '0' <= c <= '9' then Some((c - '0') as nat)
    else if 'a' <= c <= 'f' then Some((c - 'a') as nat + 10)
    else None
  }

  function HexOf(bytes: Bytes): string {
    if bytes == [] then ""
    else
      var b := bytes[0] as int;
      [HEX[b / 16], HEX[b % 16]] + HexOf(bytes[1..])
  }

  /** Rust's decimal rendering of an unsigned integer. */
  function Decimal(n: nat): (s: string)
    ensures s != ""
    ensures forall i :: 0 <= i < |s| ==> '0' <= s[i] <= '9'
  {
    (if n < 10 then "" else Decimal(n / 10)) + [HEX[n % 10]]
  }

  function WriterId(w: WriterRef): string {
    match w
    case Number(n) => "number:" + Decimal(n)
    case Device(k) => "device:" + HexOf(k)
  }

  /** `str::split_once(':')`. */
  function SplitAtColon(s: string): Option<(string, string)> {
    if s == "" then None
    else if s[0] == ':' then Some(("", s[1..]))
    else match SplitAtColon(s[1..])
      case None => None
      case Some((before, after)) => Some(([s[0]] + before, after))
  }

  function DigitsValue(s: string): Option<nat> {
    if s == "" then Some(0)
    else
      var last := s[|s| - 1];
      match DigitsValue(s[..|s| - 1])
      case Some(high) => if '0' <= last <= '9' then Some(high * 10 + (last - '0') as nat) else None
      case None => None
  }

  /** `str::parse::<u64>()`: one optional plus sign, at least one digit, no overflow. */
  function ParseU64(s: string): Option<U64> {
    var digits := if s != "" && s[0] == '+' then s[1..] else s;
    if digits == "" then None
    else match DigitsValue(digits)
      case Some(n) => if n < 0x1_0000_0000_0000_0000 then Some(n) else None
      case None => None
  }

  function ParseHex(s: string): Option<Bytes>
    requires |s| % 2 == 0
  {
    if s == "" then Some([])
    else match (HexDigit(s[0]), HexDigit(s[1]), ParseHex(s[2..]))
      case (Some(hi), Some(lo), Some(rest)) =>
        if hi * 16 + lo < 256 then Some([(hi * 16 + lo) as Byte] + rest) else None
      case _ => None
  }

  function WriterFromId(id: string): Option<WriterRef> {
    match SplitAtColon(id)
    case None => None
    case Some((kind, rest)) =>
      if kind == "number" then
        match ParseU64(rest)
        case Some(n) => Some(Number(n))
        case None => None
      else if kind == "device" && |rest| == 64 then
        match ParseHex(rest)
        case Some(bytes) => if |bytes| == 32 then Some(Device(bytes)) else None
        case None => None
      else None
  }

  lemma HexDigitRoundTrip(d: nat)
    requires d < 16
    ensures HexDigit(HEX[d]) == Some(d)
  {}

  lemma {:induction false} HexRoundTrip(bytes: Bytes)
    ensures |HexOf(bytes)| == 2 * |bytes|
    ensures ParseHex(HexOf(bytes)) == Some(bytes)
  {
    if bytes != [] {
      var b := bytes[0] as int;
      var s := HexOf(bytes);
      HexRoundTrip(bytes[1..]);
      HexDigitRoundTrip(b / 16);
      HexDigitRoundTrip(b % 16);
      assert s[2..] == HexOf(bytes[1..]);
      assert [bytes[0]] + bytes[1..] == bytes;
    }
  }

  lemma DigitSpelling(d: nat)
    requires d < 10
    ensures '0' <= HEX[d] <= '9' && (HEX[d] - '0') as nat == d
  {}

  lemma {:induction false} DecimalRoundTrip(n: nat)
    ensures DigitsValue(Decimal(n)) == Some(n)
  {
    if n < 10 {
      assert Decimal(n) == "" + [HEX[n]];
      OneMoreDigit("", 0, n);
    } else {
      DecimalRoundTrip(n / 10);
      OneMoreDigit(Decimal(n / 10), n / 10, n % 10);
    }
  }

  lemma OneMoreDigit(high: string, value: nat, d: nat)
    requires DigitsValue(high) == Some(value) && d < 10
    ensures DigitsValue(high + [HEX[d]]) == Some(10 * value + d)
  {
    var s := high + [HEX[d]];
    assert s[..|s| - 1] == high;
    DigitSpelling(d);
  }

  lemma {:induction false} SplitPrefix(kind: string, rest: string)
    requires ':' !in kind
    ensures SplitAtColon(kind + ":" + rest) == Some((kind, rest))
  {
    var s := kind + ":" + rest;
    if kind == "" {
      assert s[1..] == rest;
    } else {
      SplitPrefix(kind[1..], rest);
      assert s[1..] == kind[1..] + ":" + rest;
      assert [kind[0]] + kind[1..] == kind;
    }
  }

  /** What one run stores, the next run reads back: no queue and no row is skipped on load. */
  lemma RoundTrip(w: WriterRef)
    ensures WriterFromId(WriterId(w)) == Some(w)
  {
    match w
    case Number(n) =>
      SplitPrefix("number", Decimal(n));
      assert WriterId(w) == "number" + ":" + Decimal(n);
      DecimalRoundTrip(n);
    case Device(k) =>
      SplitPrefix("device", HexOf(k));
      assert WriterId(w) == "device" + ":" + HexOf(k);
      HexRoundTrip(k);
  }

  /** Two writers never share a spelling, so no table row can belong to both. */
  lemma IdInjective()
    ensures forall a: WriterRef, b: WriterRef {:trigger WriterId(a), WriterId(b)} ::
              WriterId(a) == WriterId(b) ==> a == b
  {
    forall a: WriterRef, b: WriterRef | WriterId(a) == WriterId(b) ensures a == b {
      RoundTrip(a);
      RoundTrip(b);
    }
  }

  /** The source fills the device spelling byte by byte. */
  method SpellWriter(w: WriterRef) returns (out: string)
    ensures out == WriterId(w)
    ensures WriterFromId(out) == Some(w)
  {
    RoundTrip(w);
    match w
    case Number(n) =>
      out := "number:" + Decimal(n);
    case Device(k) =>
      out := SpellKey("device:", k);
  }

  method SpellKey(prefix: string, k: Bytes) returns (out: string)
    ensures out == prefix + HexOf(k)
  {
    out := prefix;
    for i := 0 to |k|
      invariant out == prefix + HexOf(k[..i])
    {
      HexSnoc(k[..i], k[i]);
      assert k[..i + 1] == k[..i] + [k[i]];
      out := out + [HEX[k[i] as int / 16]] + [HEX[k[i] as int % 16]];
    }
    assert k[..|k|] == k;
  }

  lemma HexCons(b: Byte, rest: Bytes)
    ensures HexOf([b] + rest) == [HEX[b as int / 16], HEX[b as int % 16]] + HexOf(rest)
  {
    assert ([b] + rest)[1..] == rest;
  }

  lemma Regroup(a: string, b: string, t: string)
    ensures a + (b + t) == (a + b) + t
  {}

  lemma {:induction false} HexSnoc(bytes: Bytes, b: Byte)
    ensures HexOf(bytes + [b]) == HexOf(bytes) + [HEX[b as int / 16], HEX[b as int % 16]]
  {
    if bytes == [] {
      HexCons(b, []);
      assert bytes + [b] == [b] + [];
    } else {
      var first, rest := bytes[0], bytes[1..];
      HexSnoc(rest, b);
      HexCons(first, rest);
      HexCons(first, rest + [b]);
      assert bytes == [first] + rest && bytes + [b] == [first] + (rest + [b]);
      Regroup([HEX[first as int / 16], HEX[first as int % 16]], HexOf(rest), [HEX[b as int / 16], HEX[b as int % 16]]);
    }
  }
}
