/**
 A carry as it runs: the plan is hashed entry by entry, written row by row in one
 transaction, then moved in memory. Laid out so, it is the simple recursive placement.
 */
module WriterPlacement {
  import opened Common
  import opened WriterNames
  import opened WriterQueues
  import opened WriterDisk

  /** The entry the plan's `x` becomes under its new hash. */
  function Rehashed(x: Carried, hash: Digest): Entry {
    Entry(x.entry.changeset, hash, x.entry.position, Origin(x.source, x.originalSeq, x.entry))
  }

  /** The chain head before the `k`-th planned entry. */
  function HeadAt(t: Queue, hashes: seq<Digest>, k: nat): Digest
    requires k <= |hashes|
  {
    if k == 0 then t.head else hashes[k - 1]
  }

  ghost predicate LinkedAt(c: Chain, t: Queue, plan: seq<Carried>, hashes: seq<Digest>, k: nat)
    requires k < |hashes| <= |plan|
  {
    c.Hash(HeadAt(t, hashes, k), t.nextSeq + k, plan[k].entry.changeset) == Some(hashes[k])
  }

  /** Each hash chains its entry to the one before, from the target's head. */
  ghost predicate Linked(c: Chain, t: Queue, plan: seq<Carried>, hashes: seq<Digest>) {
    |hashes| <= |plan| && forall k :: 0 <= k < |hashes| ==> LinkedAt(c, t, plan, hashes, k)
  }

  /** What the storage of one row asks. */
  predicate RowFits(t: Queue, x: Carried, k: nat) {
    Storable(t.nextSeq + k) && Storable(x.entry.position) && StorableOrigin(Origin(x.source, x.originalSeq, x.entry))
  }

  /** What the whole transaction asks. */
  ghost predicate PlanFits(t: Queue, plan: seq<Carried>) {
    && (forall k :: 0 <= k < |plan| ==> RowFits(t, plan[k], k))
    && (plan == [] || Storable(t.nextSeq + |plan|))
  }

  function PendingLaid(t: Queue, plan: seq<Carried>, hashes: seq<Digest>, k: nat): map<nat, Entry>
    requires k <= |plan| == |hashes|
  {
    if k == 0 then t.pending
    else PendingLaid(t, plan, hashes, k - 1)[t.nextSeq + k - 1 := Rehashed(plan[k - 1], hashes[k - 1])]
  }

  function RowsLaid(rows: Rows, target: WriterRef, t: Queue, plan: seq<Carried>, hashes: seq<Digest>, k: nat): Rows
    requires k <= |plan| == |hashes|
  {
    if k == 0 then rows
    else RowsLaid(rows, target, t, plan, hashes, k - 1)[(target, t.nextSeq + k - 1) := Rehashed(plan[k - 1], hashes[k - 1])]
  }

  function Laid(t: Queue, plan: seq<Carried>, hashes: seq<Digest>): Queue
    requires |plan| == |hashes|
  {
    Queue(t.nextSeq + |plan|, HeadAt(t, hashes, |hashes|), PendingLaid(t, plan, hashes, |plan|))
  }

  function ExtendWith(c: Chain, t: Queue, x: Carried): Option<Queue> {
    Extend(c, t, x.entry.changeset, x.entry.position, Origin(x.source, x.originalSeq, x.entry))
  }

  lemma {:induction false} PlaceSnoc(c: Chain, t: Queue, plan: seq<Carried>, x: Carried)
    ensures Place(c, t, plan + [x]) == match Place(c, t, plan) case None => None case Some(u) => ExtendWith(c, u, x)
    decreases |plan|
  {
    if plan == [] {
      assert ([x] + [])[1..] == [];
      assert plan + [x] == [x];
      match ExtendWith(c, t, x)
      case None =>
      case Some(u) => assert Place(c, u, []) == Some(u);
    } else {
      assert (plan + [x])[1..] == plan[1..] + [x];
      match ExtendWith(c, t, plan[0])
      case None =>
      case Some(u) => PlaceSnoc(c, u, plan[1..], x);
    }
  }

  lemma {:induction false} PrefixLaid(t: Queue, plan: seq<Carried>, hashes: seq<Digest>, k: nat)
    requires k < |plan| == |hashes|
    ensures PendingLaid(t, plan[..|plan| - 1], hashes[..|hashes| - 1], k) == PendingLaid(t, plan, hashes, k)
  {
    if k > 0 {
      PrefixLaid(t, plan, hashes, k - 1);
    }
  }

  lemma FitsSnoc(t: Queue, plan: seq<Carried>, x: Carried)
    ensures PlanFits(t, plan + [x]) <==>
            PlanFits(t, plan) && Storable(t.nextSeq + |plan| + 1) && Storable(x.entry.position)
            && StorableOrigin(Origin(x.source, x.originalSeq, x.entry))
  {
    var all := plan + [x];
    assert forall k :: 0 <= k < |plan| ==> all[k] == plan[k];
    assert all[|plan|] == x;
    if PlanFits(t, all) {
      assert RowFits(t, all[|plan|], |plan|);
      forall k | 0 <= k < |plan| ensures RowFits(t, plan[k], k) {
        assert RowFits(t, all[k], k);
      }
    }
  }

  lemma LinkedPrefix(c: Chain, t: Queue, plan: seq<Carried>, hashes: seq<Digest>)
    requires Linked(c, t, plan, hashes) && |plan| == |hashes| > 0
    ensures Linked(c, t, plan[..|plan| - 1], hashes[..|hashes| - 1])
  {
    var p, h := plan[..|plan| - 1], hashes[..|hashes| - 1];
    forall k | 0 <= k < |h| ensures LinkedAt(c, t, p, h, k) {
      assert LinkedAt(c, t, plan, hashes, k);
    }
  }

  /** Once hashed, the placement succeeds exactly when the transaction can store it, and is what it stores. */
  lemma {:induction false} PlaceIsLaid(c: Chain, t: Queue, plan: seq<Carried>, hashes: seq<Digest>)
    requires Linked(c, t, plan, hashes) && |plan| == |hashes|
    ensures Place(c, t, plan) == if PlanFits(t, plan) then Some(Laid(t, plan, hashes)) else None
    decreases |plan|
  {
    if plan != [] {
      var n := |plan| - 1;
      var p, h, x := plan[..n], hashes[..n], plan[n];
      assert plan == p + [x];
      LinkedPrefix(c, t, plan, hashes);
      PlaceIsLaid(c, t, p, h);
      PlaceSnoc(c, t, p, x);
      FitsSnoc(t, p, x);
      PrefixLaid(t, plan, hashes, n);
      assert LinkedAt(c, t, plan, hashes, n);
      assert HeadAt(t, h, n) == HeadAt(t, hashes, n);
    }
  }

  lemma {:induction false} PlaceStops(c: Chain, t: Queue, plan: seq<Carried>, n: nat)
    requires n <= |plan| && Place(c, t, plan[..n]) == None
    ensures Place(c, t, plan) == None
    decreases |plan| - n
  {
    if n == |plan| {
      assert plan[..n] == plan;
    } else {
      assert plan[..n + 1] == plan[..n] + [plan[n]];
      PlaceSnoc(c, t, plan[..n], plan[n]);
      PlaceStops(c, t, plan, n + 1);
    }
  }

  /** A changeset the hash cannot read refuses the whole carry. */
  lemma Unreadable(c: Chain, t: Queue, plan: seq<Carried>, hashes: seq<Digest>)
    requires Linked(c, t, plan, hashes) && |hashes| < |plan|
    requires c.Hash(HeadAt(t, hashes, |hashes|), t.nextSeq + |hashes|, plan[|hashes|].entry.changeset) == None
    ensures Place(c, t, plan) == None
  {
    var n := |hashes|;
    forall k | 0 <= k < n ensures LinkedAt(c, t, plan[..n], hashes, k) {
      assert LinkedAt(c, t, plan, hashes, k);
    }
    PlaceIsLaid(c, t, plan[..n], hashes);
    assert plan[..n + 1] == plan[..n] + [plan[n]];
    PlaceSnoc(c, t, plan[..n], plan[n]);
    PlaceStops(c, t, plan, n + 1);
  }

  // ---- the rows ----

  lemma {:induction false} PlaceRowsSnoc(c: Chain, d: Disk, target: WriterRef, t: Queue, plan: seq<Carried>, x: Carried)
    requires Place(c, t, plan).Some? && Place(c, t, plan + [x]).Some?
    ensures var u := Place(c, t, plan).value;
            var v := Place(c, t, plan + [x]).value;
            && u.nextSeq in v.pending
            && PlaceRows(c, d, target, t, plan + [x]) ==
               PutRow(PlaceRows(c, d, target, t, plan), target, u.nextSeq, v.pending[u.nextSeq])
    decreases |plan|
  {
    PlaceSnoc(c, t, plan, x);
    if plan == [] {
      assert plan + [x] == [x];
      var u := ExtendWith(c, t, x).value;
      assert [x][1..] == [];
      assert PlaceRows(c, PutRow(d, target, t.nextSeq, u.pending[t.nextSeq]), target, u, []) == PutRow(d, target, t.nextSeq, u.pending[t.nextSeq]);
    } else {
      assert (plan + [x])[1..] == plan[1..] + [x];
      var u := ExtendWith(c, t, plan[0]).value;
      PlaceRowsSnoc(c, PutRow(d, target, t.nextSeq, u.pending[t.nextSeq]), target, u, plan[1..], x);
    }
  }

  lemma {:induction false} PrefixRows(rows: Rows, target: WriterRef, t: Queue, plan: seq<Carried>, hashes: seq<Digest>, k: nat)
    requires k < |plan| == |hashes|
    ensures RowsLaid(rows, target, t, plan[..|plan| - 1], hashes[..|hashes| - 1], k) == RowsLaid(rows, target, t, plan, hashes, k)
  {
    if k > 0 {
      PrefixRows(rows, target, t, plan, hashes, k - 1);
    }
  }

  /** The rows the transaction writes are the rows of the placement. */
  lemma {:induction false} PlaceRowsAreLaid(c: Chain, d: Disk, target: WriterRef, t: Queue, plan: seq<Carried>, hashes: seq<Digest>)
    requires Linked(c, t, plan, hashes) && |plan| == |hashes| && PlanFits(t, plan)
    ensures Place(c, t, plan).Some?
    ensures PlaceRows(c, d, target, t, plan) == d.(rows := RowsLaid(d.rows, target, t, plan, hashes, |plan|))
    decreases |plan|
  {
    PlaceIsLaid(c, t, plan, hashes);
    if plan != [] {
      var n := |plan| - 1;
      var p, h, x := plan[..n], hashes[..n], plan[n];
      assert plan == p + [x];
      LinkedPrefix(c, t, plan, hashes);
      FitsSnoc(t, p, x);
      PlaceRowsAreLaid(c, d, target, t, p, h);
      PlaceIsLaid(c, t, p, h);
      PlaceRowsSnoc(c, d, target, t, p, x);
      PrefixRows(d.rows, target, t, plan, hashes, n);
    }
  }
}
