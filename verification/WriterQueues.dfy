/**
 The in-memory writer queues: every local write is an entry of one writer, with a
 sequence there, a hash chaining it to the entries before it, a replica-wide position
 and, once it has moved, where it was written first.
 */
module WriterQueues {
  import opened Common
  import opened WriterNames

  const GENESIS: Digest :=
    [0, 0, 0, 0, 0, 0, 0, 0, 0, 0, 0, 0, 0, 0, 0, 0,
     0, 0, 0, 0, 0, 0, 0, 0, 0, 0, 0, 0, 0, 0, 0, 0]

  /** The number no server grants, which stands for one not granted yet. */
  const UNISSUED: WriterRef := Number(0)

  /** Sequences and positions are stored as signed 64-bit integers. */
  const STORAGE_MAX: nat := 0x7fff_ffff_ffff_ffff

  predicate IsReal(w: WriterRef) { w != UNISSUED }

  datatype Provenance = Provenance(writer: WriterRef, seqNo: nat)

  datatype Entry = Entry(changeset: Bytes, hash: Digest, position: nat, provenance: Option<Provenance>)

  datatype Queue = Queue(nextSeq: nat, head: Digest, pending: map<nat, Entry>)

  const FRESH := Queue(1, GENESIS, map[])

  type Queues = map<WriterRef, Queue>

  function At(q: Queues, w: WriterRef): Queue { if w in q then q[w] else FRESH }

  ghost predicate Holds(q: Queues, w: WriterRef, s: nat) { w in q && s in q[w].pending }

  /**
   The canonical upload bytes of a changeset (`None` when it does not parse), and the
   hash linking an entry to the one before it. Nothing is assumed of either.
   */
  datatype Chain = Chain(logical: Bytes -> Option<Bytes>, link: (Digest, nat, Bytes) -> Digest) {
    function Hash(head: Digest, seqNo: nat, changeset: Bytes): Option<Digest> {
      match logical(changeset)
      case None => None
      case Some(bytes) => Some(link(head, seqNo, bytes))
    }
  }

  predicate Storable(n: nat) { n <= STORAGE_MAX }

  predicate StorableOrigin(p: Option<Provenance>) { p.Some? ==> Storable(p.value.seqNo) }

  /** The writer and sequence the server could first have known an entry by. */
  function Origin(w: WriterRef, s: nat, e: Entry): Option<Provenance> {
    if e.provenance.Some? then e.provenance
    else if IsReal(w) then Some(Provenance(w, s))
    else None
  }

  // ---- appending ----

  /** One more entry at the end of a queue, or `None` when it cannot be hashed or stored. */
  function Extend(c: Chain, t: Queue, changeset: Bytes, position: nat, origin: Option<Provenance>): Option<Queue> {
    match c.Hash(t.head, t.nextSeq, changeset)
    case None => None
    case Some(h) =>
      if Storable(t.nextSeq + 1) && Storable(position) && StorableOrigin(origin) then
        Some(Queue(t.nextSeq + 1, h, t.pending[t.nextSeq := Entry(changeset, h, position, origin)]))
      else None
  }

  // ---- carrying ----

  datatype Carried = Carried(source: WriterRef, originalSeq: nat, entry: Entry)

  /** The entry is one of the queue's, under its own writer and sequence. */
  ghost predicate Stands(q: Queues, e: Carried) {
    Holds(q, e.source, e.originalSeq) && q[e.source].pending[e.originalSeq] == e.entry
  }

  function Tail(q: Queues, w: WriterRef): (r: seq<Carried>)
    ensures forall i :: 0 <= i < |r| ==> Stands(q, r[i]) && r[i].source == w
    ensures forall i, j :: 0 <= i < j < |r| ==> r[i].originalSeq < r[j].originalSeq
    ensures forall s :: Holds(q, w, s) ==> Carried(w, s, q[w].pending[s]) in r
  {
    if w !in q then [] else Listed(w, q[w].pending, Ascending(q[w].pending.Keys))
  }

  function Listed(w: WriterRef, pending: map<nat, Entry>, seqs: seq<nat>): (r: seq<Carried>)
    requires forall s :: s in seqs ==> s in pending
    ensures |r| == |seqs|
    ensures forall i :: 0 <= i < |r| ==> r[i] == Carried(w, seqs[i], pending[seqs[i]])
    ensures forall s :: s in seqs ==> Carried(w, s, pending[s]) in r
  {
    if seqs == [] then [] else [Carried(w, seqs[0], pending[seqs[0]])] + Listed(w, pending, seqs[1..])
  }

  function Collect(q: Queues, dead: seq<WriterRef>): (r: seq<Carried>)
    ensures forall e :: e in r ==> Stands(q, e) && e.source in dead
    ensures forall w, s :: w in dead && Holds(q, w, s) ==> Carried(w, s, q[w].pending[s]) in r
  {
    if dead == [] then []
    else
      assert dead == [dead[0]] + dead[1..];
      Tail(q, dead[0]) + Collect(q, dead[1..])
  }

  ghost predicate PositionsAscend(s: seq<Carried>) {
    forall i, j :: 0 <= i < j < |s| ==> s[i].entry.position < s[j].entry.position
  }

  ghost predicate PositionsDiffer(s: seq<Carried>) {
    forall i, j :: 0 <= i < j < |s| ==> s[i].entry.position != s[j].entry.position
  }

  function Insert(e: Carried, s: seq<Carried>): (r: seq<Carried>)
    ensures |r| == |s| + 1
    ensures forall x :: x in r <==> x == e || x in s
  {
    if s == [] || e.entry.position <= s[0].entry.position then [e] + s
    else
      assert s == [s[0]] + s[1..];
      [s[0]] + Insert(e, s[1..])
  }

  lemma {:induction false} InsertAscends(e: Carried, s: seq<Carried>)
    requires PositionsAscend(s)
    requires forall x :: x in s ==> x.entry.position != e.entry.position
    ensures PositionsAscend(Insert(e, s))
  {
    if s != [] && s[0].entry.position < e.entry.position {
      InsertAscends(e, s[1..]);
      var rest := Insert(e, s[1..]);
      forall j | 0 <= j < |rest| ensures s[0].entry.position < rest[j].entry.position {
        assert rest[j] in rest;
        assert rest[j] == e || exists k :: 1 <= k < |s| && rest[j] == s[k];
      }
    }
  }

  function SortByPosition(s: seq<Carried>): (r: seq<Carried>)
    ensures |r| == |s|
    ensures forall x :: x in r <==> x in s
  {
    if s == [] then []
    else
      assert s == [s[0]] + s[1..];
      Insert(s[0], SortByPosition(s[1..]))
  }

  lemma {:induction false} SortAscends(s: seq<Carried>)
    requires PositionsDiffer(s)
    ensures PositionsAscend(SortByPosition(s))
  {
    if s != [] {
      SortAscends(s[1..]);
      forall x | x in SortByPosition(s[1..]) ensures x.entry.position != s[0].entry.position {
        assert x in s[1..];
        assert exists k :: 1 <= k < |s| && x == s[k];
      }
      InsertAscends(s[0], SortByPosition(s[1..]));
    }
  }

  function Plan(q: Queues, dead: seq<WriterRef>): seq<Carried> {
    SortByPosition(Collect(q, dead))
  }

  function Place(c: Chain, t: Queue, plan: seq<Carried>): Option<Queue>
    decreases |plan|
  {
    if plan == [] then Some(t)
    else
      var e := plan[0];
      match Extend(c, t, e.entry.changeset, e.entry.position, Origin(e.source, e.originalSeq, e.entry))
      case None => None
      case Some(next) => Place(c, next, plan[1..])
  }

  function Without(q: Queues, dead: seq<WriterRef>): (r: Queues)
    ensures forall w :: w in r <==> w in q && w !in dead
    ensures forall w :: w in r ==> r[w] == q[w]
  {
    map w | w in q && w !in dead :: q[w]
  }

  /** The queues after `carry_writers`, `None` when it refuses and nothing changes. */
  function Carry(c: Chain, q: Queues, dead: seq<WriterRef>, target: WriterRef): Option<Queues> {
    var plan := Plan(q, dead);
    match Place(c, At(q, target), plan)
    case None => None
    case Some(t) => Some(Without(if plan == [] then q else q[target := t], dead))
  }

  // ---- what every queue keeps ----

  ghost predicate QueueOk(t: Queue) {
    && 1 <= t.nextSeq && Storable(t.nextSeq)
    && (forall s :: s in t.pending ==>
          && 1 <= s < t.nextSeq && Storable(t.pending[s].position)
          && StorableOrigin(t.pending[s].provenance))
  }

  ghost predicate QueuesOk(q: Queues) {
    forall w :: w in q ==> QueueOk(q[w])
  }

  /** No two outstanding entries of the replica share a position. */
  ghost predicate OneOrder(q: Queues) {
    forall v, r, w, s {:trigger Holds(q, v, r), Holds(q, w, s)} ::
      Holds(q, v, r) && Holds(q, w, s) && q[v].pending[r].position == q[w].pending[s].position ==> v == w && r == s
  }

  ghost predicate PositionsBelow(q: Queues, next: nat) {
    forall w, s :: Holds(q, w, s) ==> q[w].pending[s].position < next
  }

  ghost predicate NoRepeats(dead: seq<WriterRef>) {
    forall i, j :: 0 <= i < j < |dead| ==> dead[i] != dead[j]
  }

  lemma {:induction false} CollectDiffers(q: Queues, dead: seq<WriterRef>)
    requires OneOrder(q) && NoRepeats(dead)
    ensures PositionsDiffer(Collect(q, dead))
  {
    if dead != [] {
      CollectDiffers(q, dead[1..]);
      var tail, rest := Tail(q, dead[0]), Collect(q, dead[1..]);
      TailDiffers(q, dead[0]);
      forall i, j | 0 <= i < |tail| && 0 <= j < |rest| ensures tail[i].entry.position != rest[j].entry.position {
        assert rest[j] in rest;
        OthersDiffer(q, dead, tail[i], rest[j]);
      }
      ConcatDiffers(tail, rest);
    }
  }

  lemma TailDiffers(q: Queues, w: WriterRef)
    requires OneOrder(q)
    ensures PositionsDiffer(Tail(q, w))
  {
    var tail := Tail(q, w);
    forall i, j | 0 <= i < j < |tail| ensures tail[i].entry.position != tail[j].entry.position {
      assert Stands(q, tail[i]) && Stands(q, tail[j]) && tail[i].originalSeq < tail[j].originalSeq;
    }
  }

  lemma OthersDiffer(q: Queues, dead: seq<WriterRef>, a: Carried, b: Carried)
    requires OneOrder(q) && NoRepeats(dead) && dead != []
    requires Stands(q, a) && Stands(q, b) && a.source == dead[0] && b.source in dead[1..]
    ensures a.entry.position != b.entry.position
  {
    var k :| 0 <= k < |dead| - 1 && dead[1..][k] == b.source;
    assert dead[k + 1] == b.source;
  }

  lemma ConcatDiffers(a: seq<Carried>, b: seq<Carried>)
    requires PositionsDiffer(a) && PositionsDiffer(b)
    requires forall i, j :: 0 <= i < |a| && 0 <= j < |b| ==> a[i].entry.position != b[j].entry.position
    ensures PositionsDiffer(a + b)
  {}

  /** Every entry of the dead writers, once each, in append order. */
  ghost predicate IsPlan(q: Queues, dead: seq<WriterRef>, plan: seq<Carried>) {
    && PositionsAscend(plan)
    && (forall e :: e in plan <==> Stands(q, e) && e.source in dead)
  }

  lemma PlanIsTheTails(q: Queues, dead: seq<WriterRef>)
    requires OneOrder(q) && NoRepeats(dead)
    ensures IsPlan(q, dead, Plan(q, dead))
  {
    CollectDiffers(q, dead);
    SortAscends(Collect(q, dead));
    forall e ensures e in Plan(q, dead) <==> Stands(q, e) && e.source in dead {
      assert e in Plan(q, dead) <==> e in Collect(q, dead);
      if Stands(q, e) && e.source in dead {
        assert Holds(q, e.source, e.originalSeq);
        assert e == Carried(e.source, e.originalSeq, q[e.source].pending[e.originalSeq]);
      }
    }
  }

  /** `r` is `t` with the planned entries after it, at consecutive fresh sequences. */
  ghost predicate Placed(t: Queue, r: Queue, plan: seq<Carried>) {
    && QueueOk(r)
    && r.nextSeq == t.nextSeq + |plan|
    && (forall s :: s in r.pending <==> s in t.pending || t.nextSeq <= s < t.nextSeq + |plan|)
    && (forall s :: s in t.pending ==> r.pending[s] == t.pending[s])
    && (forall i :: 0 <= i < |plan| ==> Lands(plan[i], r.pending[t.nextSeq + i]))
  }

  predicate Lands(from: Carried, e: Entry) {
    && e.changeset == from.entry.changeset
    && e.position == from.entry.position
    && e.provenance == Origin(from.source, from.originalSeq, from.entry)
  }

  lemma {:induction false} PlaceShape(c: Chain, t: Queue, plan: seq<Carried>)
    requires QueueOk(t) && Place(c, t, plan).Some?
    ensures Placed(t, Place(c, t, plan).value, plan)
    decreases |plan|
  {
    if plan != [] {
      var e := plan[0];
      var next := Extend(c, t, e.entry.changeset, e.entry.position, Origin(e.source, e.originalSeq, e.entry)).value;
      PlaceShape(c, next, plan[1..]);
      var r := Place(c, t, plan).value;
      assert t.nextSeq in next.pending;
      forall i | 0 <= i < |plan| ensures Lands(plan[i], r.pending[t.nextSeq + i]) {
        if i > 0 {
          assert plan[i] == plan[1..][i - 1];
          assert t.nextSeq + i == next.nextSeq + (i - 1);
        }
      }
    }
  }
}
