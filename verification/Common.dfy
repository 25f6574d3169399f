/** Types shared by every component: optional values, machine integers and byte strings. */
module Common {

  datatype Option<+T> = None | Some(value: T)

  newtype Byte = b: int | 0 <= b < 256

  /** A Rust `u64`. */
  type U64 = n: nat | n < 0x1_0000_0000_0000_0000

  const U64_MAX: nat := 0xffff_ffff_ffff_ffff

  type Bytes = seq<Byte>

  /** 32 bytes: a device key id, or an entry hash. */
  type Digest = d: seq<Byte> | |d| == 32 witness seq(32, _ => 0)

  function Max(a: int, b: int): int { if a < b then b else a }

  function Min(a: int, b: int): int { if a < b then a else b }

  /** Rust's `saturating_sub` on unsigned integers. */
  function Monus(a: nat, b: nat): nat { if a < b then 0 else a - b }

  function Pow2(n: nat): (p: nat)
    ensures p >= 1
  {
    if n == 0 then 1 else 2 * Pow2(n - 1)
  }

  /**
   Always true, and there for the solver alone. A large definition written under a quantifier
   that fires on `Unfold` stays one closed fact, which most proofs only pass along. A proof that
   reads or builds it asserts `Unfold(0)`, and the others do not pay for it.
   */
  ghost predicate Unfold(u: int) { true }

  /** The least member of a non-empty set. */
  function Least(s: set<nat>): (m: nat)
    requires s != {}
    ensures m in s && forall x :: x in s ==> m <= x
  {
    LeastExists(s);
    var m :| m in s && forall x :: x in s ==> m <= x;
    m
  }

  lemma {:induction false} LeastExists(s: set<nat>)
    requires s != {}
    ensures exists m :: m in s && forall x :: x in s ==> m <= x
  {
    var y :| y in s;
    LeastBelow(s, y);
  }

  lemma {:induction false} LeastBelow(s: set<nat>, y: nat)
    requires y in s
    ensures exists m :: m in s && forall x :: x in s ==> m <= x
    decreases y
  {
    if z :| z in s && z < y {
      LeastBelow(s, z);
    }
  }

  /** The members of a set in ascending order, as a `BTreeMap` walks its keys. */
  function Ascending(s: set<nat>): (r: seq<nat>)
    ensures forall x :: x in r <==> x in s
    ensures forall i, j :: 0 <= i < j < |r| ==> r[i] < r[j]
    ensures |r| == |s|
    decreases |s|
  {
    if s == {} then []
    else
      var m := Least(s);
      var rest := Ascending(s - {m});
      assert forall x :: x in rest ==> m < x;
      [m] + rest
  }
}
