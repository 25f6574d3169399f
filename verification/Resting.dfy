/**
 The resting table of aggregate answers: one row per statistic and group, what each server
 frame does to it, what the lookups read back, and the cap that evicts the statistics
 used longest ago.
 */
module Resting {
  import opened Common

  /** A query identity with its canonical binds. */
  datatype Stat = Stat(query: int, binds: Bytes)

  /** A row's value and when it was written. Positional rows and scalars carry no group values. */
  datatype Cell = Cell(groupValues: Option<string>, result: string, updatedAt: int)

  type Table = map<(Stat, Bytes), Cell>

  const SCALAR_KEY: Bytes := []

  /** A body as the frame carries it, with the elements of its array when it is one. */
  datatype Body = Body(text: string, elements: Option<seq<string>>)

  datatype Frame = Frame(groupKey: Option<Bytes>, groupValues: Option<string>, result: Option<Body>, isFullResult: bool)

  // ---- the statements ----

  function Upsert(t: Table, s: Stat, key: Bytes, values: Option<string>, text: string, now: int): Table {
    t[(s, key) := Cell(values, text, now)]
  }

  function Remove(t: Table, s: Stat, key: Bytes): Table { t - {(s, key)} }

  function Clear(t: Table, s: Stat): Table { map k | k in t && k.0 != s :: t[k] }

  /** `u64::to_be_bytes`. */
  function BigEndian(n: nat, width: nat): (b: Bytes)
    ensures |b| == width
  {
    if width == 0 then [] else BigEndian(n / 256, width - 1) + [(n % 256) as Byte]
  }

  function PositionKey(i: nat): Bytes { BigEndian(if i <= U64_MAX then i else U64_MAX, 8) }

  /** The elements of a whole answer from position `from` on, one positional row each. */
  function PutRows(t: Table, s: Stat, elements: seq<string>, from: nat, now: int): Table
    requires from <= |elements|
    decreases |elements| - from
  {
    if from == |elements| then t
    else PutRows(t[(s, PositionKey(from)) := Cell(None, elements[from], now)], s, elements, from + 1, now)
  }

  function Applied(t: Table, s: Stat, f: Frame, now: int): Table {
    if f.result.None? then Remove(t, s, if f.groupKey.Some? then f.groupKey.value else SCALAR_KEY)
    else if f.groupKey.Some? then Upsert(t, s, f.groupKey.value, f.groupValues, f.result.value.text, now)
    else if f.isFullResult && f.result.value.elements.Some? then PutRows(Clear(t, s), s, f.result.value.elements.value, 0, now)
    else Upsert(t, s, SCALAR_KEY, None, f.result.value.text, now)
  }

  // ---- big-endian keys sort as their numbers ----

  /** The order SQLite compares blobs in. */
  predicate LexLess(a: Bytes, b: Bytes)
    decreases |a|
  {
    if b == [] then false
    else if a == [] then true
    else a[0] < b[0] || (a[0] == b[0] && LexLess(a[1..], b[1..]))
  }

  lemma {:induction false} LexSnoc(a: Bytes, x: Byte, b: Bytes, y: Byte)
    requires |a| == |b|
    ensures LexLess(a + [x], b + [y]) <==> LexLess(a, b) || (a == b && x < y)
    decreases |a|
  {
    if a == [] {
      assert (a + [x])[1..] == [] && (b + [y])[1..] == [];
    } else {
      assert (a + [x])[1..] == a[1..] + [x] && (b + [y])[1..] == b[1..] + [y];
      LexSnoc(a[1..], x, b[1..], y);
      assert a == [a[0]] + a[1..] && b == [b[0]] + b[1..];
    }
  }

  function Pow256(w: nat): nat { if w == 0 then 1 else 256 * Pow256(w - 1) }

  lemma {:induction false} BigEndianOrder(m: nat, n: nat, w: nat)
    requires m < Pow256(w) && n < Pow256(w)
    ensures LexLess(BigEndian(m, w), BigEndian(n, w)) <==> m < n
    ensures BigEndian(m, w) == BigEndian(n, w) <==> m == n
    decreases w
  {
    if w > 0 {
      BigEndianOrder(m / 256, n / 256, w - 1);
      var a, b := BigEndian(m / 256, w - 1), BigEndian(n / 256, w - 1);
      var x, y := (m % 256) as Byte, (n % 256) as Byte;
      LexSnoc(a, x, b, y);
      assert a + [x] == b + [y] <==> a == b && x == y by {
        assert (a + [x])[..w - 1] == a && (b + [y])[..w - 1] == b;
        assert (a + [x])[w - 1] == x && (b + [y])[w - 1] == y;
      }
    }
  }

  lemma EightBytes()
    ensures Pow256(8) == U64_MAX + 1
  {}

  lemma PositionOrder(i: nat, j: nat)
    requires i <= U64_MAX && j <= U64_MAX
    ensures LexLess(PositionKey(i), PositionKey(j)) <==> i < j
    ensures PositionKey(i) == PositionKey(j) <==> i == j
  {
    EightBytes();
    BigEndianOrder(i, j, 8);
  }

  // ---- what a frame changes ----

  lemma {:induction false} PutRowsElsewhere(t: Table, s: Stat, elements: seq<string>, from: nat, now: int, k: (Stat, Bytes))
    requires from <= |elements| && k.0 != s
    ensures k in PutRows(t, s, elements, from, now) <==> k in t
    ensures k in t ==> PutRows(t, s, elements, from, now)[k] == t[k]
    decreases |elements| - from
  {
    if from < |elements| {
      PutRowsElsewhere(t[(s, PositionKey(from)) := Cell(None, elements[from], now)], s, elements, from + 1, now, k);
    }
  }

  /** A frame changes its own statistic's rows and no other's. */
  lemma FrameStaysAtHome(t: Table, s: Stat, f: Frame, now: int, k: (Stat, Bytes))
    requires k.0 != s
    ensures k in Applied(t, s, f, now) <==> k in t
    ensures k in t ==> Applied(t, s, f, now)[k] == t[k]
  {
    if f.result.Some? && f.groupKey.None? && f.isFullResult && f.result.value.elements.Some? {
      PutRowsElsewhere(Clear(t, s), s, f.result.value.elements.value, 0, now, k);
    }
  }

  // ---- what the lookups read back ----

  function LookupScalar(t: Table, s: Stat): Option<(string, int)> {
    if (s, SCALAR_KEY) in t then Some((t[(s, SCALAR_KEY)].result, t[(s, SCALAR_KEY)].updatedAt)) else None
  }

  /** The statistic's group rows by ascending stored key, the scalar row excluded. */
  ghost predicate ListsGroups(t: Table, s: Stat, keys: seq<Bytes>) {
    && (forall i, j :: 0 <= i < j < |keys| ==> LexLess(keys[i], keys[j]))
    && (forall k :: k in keys <==> (s, k) in t && k != SCALAR_KEY)
  }

  lemma {:induction false} LexOneWay(a: Bytes, b: Bytes)
    requires LexLess(a, b)
    ensures !LexLess(b, a) && a != b
    decreases |a|
  {
    if a != [] && a[0] == b[0] {
      LexOneWay(a[1..], b[1..]);
    }
  }

  lemma FirstKeysAgree(x: seq<Bytes>, y: seq<Bytes>)
    requires (forall i, j :: 0 <= i < j < |x| ==> LexLess(x[i], x[j])) && (forall i, j :: 0 <= i < j < |y| ==> LexLess(y[i], y[j]))
    requires x != [] && forall k :: k in x <==> k in y
    ensures y != [] && x[0] == y[0]
  {
    assert x[0] in y;
    var i :| 0 <= i < |y| && y[i] == x[0];
    assert y[0] in x;
    var j :| 0 <= j < |x| && x[j] == y[0];
    if i > 0 && j > 0 {
      LexOneWay(y[0], y[i]);
      assert false;
    }
  }

  /** There is one such listing, so the lookup is determined by the table. */
  lemma {:induction false} ListingIsOne(x: seq<Bytes>, y: seq<Bytes>)
    requires (forall i, j :: 0 <= i < j < |x| ==> LexLess(x[i], x[j])) && (forall i, j :: 0 <= i < j < |y| ==> LexLess(y[i], y[j]))
    requires forall k :: k in x <==> k in y
    ensures x == y
    decreases |x|
  {
    if x == [] {
      assert forall i :: 0 <= i < |y| ==> y[i] in x;
    } else {
      FirstKeysAgree(x, y);
      forall k ensures k in x[1..] <==> k in y[1..] {
        RestOf(x, k);
        RestOf(y, k);
      }
      ListingIsOne(x[1..], y[1..]);
      assert x == [x[0]] + x[1..] && y == [y[0]] + y[1..];
    }
  }

  lemma RestOf(x: seq<Bytes>, k: Bytes)
    requires x != [] && forall i, j :: 0 <= i < j < |x| ==> LexLess(x[i], x[j])
    ensures k in x[1..] <==> k in x && k != x[0]
  {
    assert x == [x[0]] + x[1..];
    forall i | 0 <= i < |x| - 1 ensures x[1..][i] != x[0] {
      assert x[1..][i] == x[i + 1];
      LexOneWay(x[0], x[i + 1]);
    }
  }

  function PositionKeys(n: nat): (r: seq<Bytes>)
    ensures |r| == n && forall i :: 0 <= i < n ==> r[i] == PositionKey(i)
  {
    seq(n, (i: nat) => PositionKey(i))
  }

  lemma {:induction false} PutRowsAt(t: Table, s: Stat, elements: seq<string>, from: nat, now: int, key: Bytes)
    requires from <= |elements| <= U64_MAX
    ensures var r := PutRows(t, s, elements, from, now);
            && ((s, key) in r <==> (s, key) in t || exists i: nat :: from <= i < |elements| && key == PositionKey(i))
            && (forall i: nat :: from <= i < |elements| && key == PositionKey(i) ==> r[(s, key)] == Cell(None, elements[i], now))
            && ((s, key) in t && (forall i: nat :: from <= i < |elements| ==> key != PositionKey(i)) ==> r[(s, key)] == t[(s, key)])
    decreases |elements| - from
  {
    if from < |elements| {
      var next := t[(s, PositionKey(from)) := Cell(None, elements[from], now)];
      PutRowsAt(next, s, elements, from + 1, now, key);
      forall i: nat | from < i < |elements| ensures PositionKey(i) != PositionKey(from) {
        PositionOrder(from, i);
      }
      if exists i: nat :: from <= i < |elements| && key == PositionKey(i) {
        var i: nat :| from <= i < |elements| && key == PositionKey(i);
        assert i == from || from + 1 <= i;
      }
    }
  }

  /** After a whole answer the group lookup returns exactly its elements in order, and no scalar rests. */
  lemma WholeAnswerReadsBack(t: Table, s: Stat, f: Frame, now: int)
    requires f.result.Some? && f.groupKey.None? && f.isFullResult && f.result.value.elements.Some?
    requires |f.result.value.elements.value| <= U64_MAX
    ensures var elements := f.result.value.elements.value;
            var r := Applied(t, s, f, now);
            && ListsGroups(r, s, PositionKeys(|elements|))
            && (forall i: nat :: i < |elements| ==> (s, PositionKey(i)) in r && r[(s, PositionKey(i))] == Cell(None, elements[i], now))
            && LookupScalar(r, s) == None
  {
    var elements := f.result.value.elements.value;
    var r := Applied(t, s, f, now);
    var keys := PositionKeys(|elements|);
    forall i, j | 0 <= i < j < |keys| ensures LexLess(keys[i], keys[j]) {
      PositionOrder(i, j);
    }
    forall k ensures k in keys <==> (s, k) in r && k != SCALAR_KEY {
      PutRowsAt(Clear(t, s), s, elements, 0, now, k);
      if (s, k) in r {
        var i: nat :| 0 <= i < |elements| && k == PositionKey(i);
        assert keys[i] == k;
      }
    }
    forall i: nat | i < |elements| ensures (s, PositionKey(i)) in r && r[(s, PositionKey(i))] == Cell(None, elements[i], now) {
      PutRowsAt(Clear(t, s), s, elements, 0, now, PositionKey(i));
    }
    PutRowsAt(Clear(t, s), s, elements, 0, now, SCALAR_KEY);
  }

  /** The row a frame that is no whole answer addresses. */
  function Addressed(f: Frame): Bytes { if f.groupKey.Some? then f.groupKey.value else SCALAR_KEY }

  predicate IsWhole(f: Frame) { f.result.Some? && f.groupKey.None? && f.isFullResult && f.result.value.elements.Some? }

  /** Any other frame touches the one row it addresses: removed without a body, written with it otherwise. */
  lemma FrameReadsBack(t: Table, s: Stat, f: Frame, now: int, key: Bytes)
    requires !IsWhole(f)
    ensures var r := Applied(t, s, f, now);
            && (key != Addressed(f) ==> ((s, key) in r <==> (s, key) in t) && ((s, key) in t ==> r[(s, key)] == t[(s, key)]))
            && (f.result.None? ==> (s, Addressed(f)) !in r)
            && (f.result.Some? ==> (s, Addressed(f)) in r && r[(s, Addressed(f))].result == f.result.value.text
                                   && r[(s, Addressed(f))].updatedAt == now)
            && (f.groupKey.None? ==> LookupScalar(r, s) == if f.result.None? then None else Some((f.result.value.text, now)))
  {}

  // ---- the writes as they run ----

  method ReplaceWhole(t: Table, s: Stat, elements: seq<string>, now: int) returns (r: Table)
    ensures r == PutRows(Clear(t, s), s, elements, 0, now)
  {
    r := Clear(t, s);
    for i := 0 to |elements|
      invariant PutRows(r, s, elements, i, now) == PutRows(Clear(t, s), s, elements, 0, now)
    {
      r := r[(s, PositionKey(i)) := Cell(None, elements[i], now)];
    }
  }

  method ApplyFrame(t: Table, s: Stat, f: Frame, now: int) returns (r: Table)
    ensures r == Applied(t, s, f, now)
  {
    match f.result
    case None => return Remove(t, s, if f.groupKey.Some? then f.groupKey.value else SCALAR_KEY);
    case Some(body) =>
      match f.groupKey {
        case Some(key) => return Upsert(t, s, key, f.groupValues, body.text, now);
        case None =>
          if f.isFullResult && body.elements.Some? {
            r := ReplaceWhole(t, s, body.elements.value, now);
          } else {
            r := Upsert(t, s, SCALAR_KEY, None, body.text, now);
          }
      }
  }

  // ---- the cap ----

  function Stats(t: Table): set<Stat> { set k | k in t :: k.0 }

  /** The newest of a statistic's rows dates it. */
  ghost predicate IsAge(t: Table, s: Stat, age: int) {
    && (exists k :: k in t && k.0 == s && t[k].updatedAt == age)
    && (forall k :: k in t && k.0 == s ==> t[k].updatedAt <= age)
  }

  function Ages(t: Table, s: Stat): set<int> { set k | k in t && k.0 == s :: t[k].updatedAt }

  method AgeOf(t: Table, s: Stat) returns (age: int)
    requires s in Stats(t)
    ensures IsAge(t, s, age)
  {
    var todo := Ages(t, s);
    var first :| first in t && first.0 == s;
    age := t[first].updatedAt;
    assert age in Ages(t, s);
    while todo != {}
      invariant todo <= Ages(t, s) && age in Ages(t, s)
      invariant forall a :: a in Ages(t, s) && a !in todo ==> a <= age
      decreases |todo|
    {
      var a :| a in todo;
      if a > age {
        age := a;
      }
      todo := todo - {a};
    }
    forall k | k in t && k.0 == s ensures t[k].updatedAt <= age {
      assert t[k].updatedAt in Ages(t, s);
    }
  }

  datatype Aged = Aged(stat: Stat, age: int)

  /** The statistics once each, oldest first. */
  ghost predicate OldestFirst(t: Table, s: seq<Aged>) {
    && (forall i :: 0 <= i < |s| ==> s[i].stat in Stats(t) && IsAge(t, s[i].stat, s[i].age))
    && (forall x :: x in Stats(t) ==> exists i :: 0 <= i < |s| && s[i].stat == x)
    && (forall i, j :: 0 <= i < j < |s| ==> s[i].stat != s[j].stat && s[i].age <= s[j].age)
  }

  function Insert(s: seq<Aged>, x: Aged): (r: seq<Aged>)
    ensures forall y :: y in r <==> y == x || y in s
    decreases |s|
  {
    if s == [] || x.age < s[0].age then [x] + s
    else
      assert s == [s[0]] + s[1..];
      [s[0]] + Insert(s[1..], x)
  }

  ghost predicate Ordered(s: seq<Aged>) { forall i, j :: 0 <= i < j < |s| ==> s[i].stat != s[j].stat && s[i].age <= s[j].age }

  lemma HeadOrders(x: Aged, s: seq<Aged>)
    requires Ordered(s) && forall y :: y in s ==> x.stat != y.stat && x.age <= y.age
    ensures Ordered([x] + s)
  {
    assert forall j :: 0 <= j < |s| ==> s[j] in s;
  }

  lemma HeadIsLeast(s: seq<Aged>, y: Aged)
    requires Ordered(s) && s != [] && y in s[1..]
    ensures s[0].stat != y.stat && s[0].age <= y.age
  {
    var k :| 0 <= k < |s| - 1 && s[1..][k] == y;
    assert s[k + 1] == y;
  }

  lemma {:induction false} InsertOrders(s: seq<Aged>, x: Aged)
    requires Ordered(s) && forall y :: y in s ==> y.stat != x.stat
    ensures Ordered(Insert(s, x))
    decreases |s|
  {
    if s == [] || x.age < s[0].age {
      forall y | y in s ensures x.stat != y.stat && x.age <= y.age {
        if y != s[0] {
          assert s == [s[0]] + s[1..];
          HeadIsLeast(s, y);
        }
      }
      HeadOrders(x, s);
    } else {
      InsertOrders(s[1..], x);
      forall y | y in Insert(s[1..], x) ensures s[0].stat != y.stat && s[0].age <= y.age {
        if y != x {
          HeadIsLeast(s, y);
        }
      }
      HeadOrders(s[0], Insert(s[1..], x));
    }
  }

  /** Grouped with their latest update, then sorted by it. */
  method SortStats(t: Table) returns (s: seq<Aged>)
    ensures OldestFirst(t, s)
  {
    s := [];
    var todo := Stats(t);
    while todo != {}
      invariant todo <= Stats(t) && Ordered(s)
      invariant forall y :: y in s ==> y.stat in Stats(t) && y.stat !in todo && IsAge(t, y.stat, y.age)
      invariant forall x :: x in Stats(t) && x !in todo ==> exists y :: y in s && y.stat == x
      decreases |todo|
    {
      var x :| x in todo;
      var age := AgeOf(t, x);
      ghost var before := s;
      InsertOrders(s, Aged(x, age));
      s := Insert(s, Aged(x, age));
      todo := todo - {x};
      forall z | z in Stats(t) && z !in todo ensures exists y :: y in s && y.stat == z {
        if z == x {
          assert Aged(x, age) in s;
        } else {
          var y :| y in before && y.stat == z;
          assert y in s;
        }
      }
    }
    forall i | 0 <= i < |s| ensures s[i].stat in Stats(t) && IsAge(t, s[i].stat, s[i].age) {
      assert s[i] in s;
    }
    forall x | x in Stats(t) ensures exists i :: 0 <= i < |s| && s[i].stat == x {
      var y :| y in s && y.stat == x;
    }
  }

  function StatSet(s: seq<Aged>): (r: set<Stat>)
    ensures forall x :: x in r <==> exists i :: 0 <= i < |s| && s[i].stat == x
  {
    set i | 0 <= i < |s| :: s[i].stat
  }

  lemma StatSetLast(s: seq<Aged>)
    requires s != []
    ensures StatSet(s) == StatSet(s[..|s| - 1]) + {s[|s| - 1].stat}
  {}

  lemma {:induction false} OncePerStat(s: seq<Aged>)
    requires Ordered(s)
    ensures |StatSet(s)| == |s|
    decreases |s|
  {
    if s == [] {
      assert StatSet(s) == {};
    } else {
      OncePerStat(s[..|s| - 1]);
      StatSetLast(s);
    }
  }

  lemma AllStats(t: Table, s: seq<Aged>)
    requires OldestFirst(t, s)
    ensures StatSet(s) == Stats(t) && |s| == |Stats(t)|
  {
    OncePerStat(s);
  }

  function Without(t: Table, gone: set<Stat>): Table { map k | k in t && k.0 !in gone :: t[k] }

  ghost predicate NoOlder(t: Table, x: Stat, y: Stat) { exists a, b :: IsAge(t, x, a) && IsAge(t, y, b) && a <= b }

  /** `gone` are the oldest unprotected statistics, as many as the excess asks and there are. */
  ghost predicate Evicted(t: Table, cap: nat, protected: set<Stat>, gone: set<Stat>) {
    var free := Stats(t) - protected;
    && gone <= free
    && |gone| == Min(Monus(|Stats(t)|, cap), |free|)
    && (forall x, y :: x in gone && y in free - gone ==> NoOlder(t, x, y))
  }

  /** The unprotected statistics among the first `i`. */
  function FreeBefore(s: seq<Aged>, i: nat, protected: set<Stat>): set<Stat>
    requires i <= |s|
  {
    set k | 0 <= k < i && s[k].stat !in protected :: s[k].stat
  }

  lemma FreeIsFree(t: Table, protected: set<Stat>, s: seq<Aged>, i: nat)
    requires OldestFirst(t, s) && i <= |s|
    ensures FreeBefore(s, i, protected) <= Stats(t) - protected
    ensures i == |s| ==> FreeBefore(s, i, protected) == Stats(t) - protected
  {}

  lemma FreeIsOldest(t: Table, protected: set<Stat>, s: seq<Aged>, i: nat, x: Stat, y: Stat)
    requires OldestFirst(t, s) && i <= |s|
    requires x in FreeBefore(s, i, protected) && y in Stats(t) - protected && y !in FreeBefore(s, i, protected)
    ensures NoOlder(t, x, y)
  {}

  lemma StoppedHere(t: Table, cap: nat, protected: set<Stat>, s: seq<Aged>, i: nat)
    requires OldestFirst(t, s) && i <= |s| && |s| >= cap
    requires |FreeBefore(s, i, protected)| <= |s| - cap && (i == |s| || |FreeBefore(s, i, protected)| == |s| - cap)
    ensures Evicted(t, cap, protected, FreeBefore(s, i, protected))
  {
    AllStats(t, s);
    var gone, free := FreeBefore(s, i, protected), Stats(t) - protected;
    FreeIsFree(t, protected, s, i);
    Subset(gone, free);
    forall x, y | x in gone && y in free - gone ensures NoOlder(t, x, y) {
      FreeIsOldest(t, protected, s, i, x, y);
    }
  }

  lemma {:induction false} Subset(a: set<Stat>, b: set<Stat>)
    requires a <= b
    ensures |a| <= |b|
  {
    assert b == a + (b - a);
  }

  lemma TakeNext(t: Table, s: seq<Aged>, k: nat, protected: set<Stat>, gone: set<Stat>, r: Table)
    requires k < |s| && Ordered(s) && gone == FreeBefore(s, k, protected) && r == Without(t, gone)
    ensures s[k].stat in protected ==> FreeBefore(s, k + 1, protected) == gone
    ensures s[k].stat !in protected ==>
              && FreeBefore(s, k + 1, protected) == gone + {s[k].stat} && |gone + {s[k].stat}| == |gone| + 1
              && Clear(r, s[k].stat) == Without(t, gone + {s[k].stat})
  {}

  /** The walk from the oldest on, until the excess is gone or everything was looked at. */
  method EvictOldest(t: Table, s: seq<Aged>, excess: nat, protected: set<Stat>) returns (r: Table, i: nat)
    requires Ordered(s)
    ensures i <= |s| && r == Without(t, FreeBefore(s, i, protected))
    ensures |FreeBefore(s, i, protected)| <= excess && (i == |s| || |FreeBefore(s, i, protected)| == excess)
  {
    r, i := t, 0;
    var over := excess;
    ghost var gone: set<Stat> := {};
    assert FreeBefore(s, 0, protected) == {} && Without(t, {}) == t;
    while i < |s| && over > 0
      invariant i <= |s| && 0 <= over && |gone| == excess - over
      invariant gone == FreeBefore(s, i, protected) && r == Without(t, gone)
    {
      TakeNext(t, s, i, protected, gone, r);
      if s[i].stat !in protected {
        r := Clear(r, s[i].stat);
        gone := gone + {s[i].stat};
        over := over - 1;
      }
      i := i + 1;
    }
  }

  lemma UnderTheCap(t: Table, cap: nat, protected: set<Stat>)
    requires |Stats(t)| <= cap
    ensures Evicted(t, cap, protected, {}) && Without(t, {}) == t
  {}

  /** Down to the cap, oldest first, sparing what a handle still watches. */
  method EnforceCap(t: Table, cap: nat, protected: set<Stat>) returns (r: Table)
    ensures exists gone :: Evicted(t, cap, protected, gone) && r == Without(t, gone)
  {
    var s := SortStats(t);
    AllStats(t, s);
    if |s| <= cap {
      UnderTheCap(t, cap, protected);
      return t;
    }
    var i;
    r, i := EvictOldest(t, s, |s| - cap, protected);
    StoppedHere(t, cap, protected, s, i);
  }

  /** What stays: everything but the evicted, and no more of it than the cap or the watched, whichever is larger. */
  lemma CapLeaves(t: Table, cap: nat, protected: set<Stat>, gone: set<Stat>)
    requires Evicted(t, cap, protected, gone)
    ensures Stats(Without(t, gone)) == Stats(t) - gone
    ensures |Stats(Without(t, gone))| <= Max(cap, |Stats(t) * protected|)
    ensures forall k :: k in t && k.0 in protected ==> k in Without(t, gone)
  {
    var free := Stats(t) - protected;
    forall x ensures x in Stats(Without(t, gone)) <==> x in Stats(t) - gone {
      if x in Stats(t) - gone {
        var k :| k in t && k.0 == x;
        assert k in Without(t, gone);
      }
    }
    assert Stats(Without(t, gone)) == Stats(t) - gone;
    Subset(gone, Stats(t));
    assert Stats(t) == gone + (Stats(t) - gone);
    assert Stats(t) == free + Stats(t) * protected;
  }
}
