/**
 The durable side of the writer queues: the tables `_connetto_writers`,
 `_connetto_pending`, `_connetto_retire` and `_connetto_retired_keys`, what each
 statement does to them, and the load that rebuilds the queues after a restart.
 */
module WriterDisk {
  import opened Common
  import opened WriterNames
  import opened WriterQueues

  type States = map<WriterRef, (nat, Digest)>
  type Rows = map<(WriterRef, nat), Entry>

  datatype Disk = Disk(states: States, rows: Rows, retires: set<WriterRef>, retiredKeys: set<Digest>)

  const BLANK := Disk(map[], map[], {}, {})

  // ---- the statements ----

  function PutState(d: Disk, w: WriterRef, next: nat, head: Digest): Disk {
    d.(states := d.states[w := (next, head)])
  }

  function PutRow(d: Disk, w: WriterRef, s: nat, e: Entry): Disk {
    d.(rows := d.rows[(w, s) := e])
  }

  function DropRow(d: Disk, w: WriterRef, s: nat): Disk {
    d.(rows := d.rows - {(w, s)})
  }

  function DropWriter(d: Disk, w: WriterRef): Disk {
    d.(states := d.states - {w}, rows := map k | k in d.rows && k.0 != w :: d.rows[k])
  }

  predicate Owns(d: Disk, w: WriterRef) { w in d.states || exists k :: k in d.rows && k.0 == w }

  function Renamed(w: WriterRef, from: WriterRef, to: WriterRef): WriterRef { if w == to then from else w }

  function RekeyRows(rows: Rows, from: WriterRef, to: WriterRef): (r: Rows)
    requires from != to && forall k :: k in rows ==> k.0 != to
    ensures forall w, s :: (w, s) in r <==> w != from && (Renamed(w, from, to), s) in rows
    ensures forall w, s :: (w, s) in r ==> r[(w, s)] == rows[(Renamed(w, from, to), s)]
  {
    var keys := set k | k in rows :: (Renamed(k.0, to, from), k.1);
    assert forall w, s :: (w, s) in keys ==> (Renamed(w, from, to), s) in rows;
    assert forall w, s :: w != from && (Renamed(w, from, to), s) in rows ==> (w, s) in keys by {
      forall w, s | w != from && (Renamed(w, from, to), s) in rows ensures (w, s) in keys {
        var k := (Renamed(w, from, to), s);
        assert k in rows && (Renamed(k.0, to, from), k.1) == (w, s);
      }
    }
    map k | k in keys :: rows[(Renamed(k.0, from, to), k.1)]
  }

  /** The rows and state of `from` renamed to `to`, or `None` on a primary-key clash. */
  function Rekey(d: Disk, from: WriterRef, to: WriterRef): Option<Disk>
    requires from != to
  {
    if Owns(d, to) then None
    else
      Some(d.(rows := RekeyRows(d.rows, from, to),
              states := if from in d.states then d.states[to := d.states[from]] - {from} else d.states))
  }

  /** The rows a carry writes under its target, in plan order. */
  function PlaceRows(c: Chain, d: Disk, target: WriterRef, t: Queue, plan: seq<Carried>): Disk
    requires Place(c, t, plan).Some?
    decreases |plan|
  {
    if plan == [] then d
    else
      var e := plan[0];
      var next := Extend(c, t, e.entry.changeset, e.entry.position, Origin(e.source, e.originalSeq, e.entry)).value;
      PlaceRows(c, PutRow(d, target, t.nextSeq, next.pending[t.nextSeq]), target, next, plan[1..])
  }

  function DropAll(d: Disk, dead: seq<WriterRef>): Disk
    decreases |dead|
  {
    if dead == [] then d
    else
      var kept := if dead[0].Device? then d.(retiredKeys := d.retiredKeys + {dead[0].key}) else d;
      DropAll(DropWriter(kept, dead[0]), dead[1..])
  }

  /** What the one transaction of a carry leaves. */
  function CarryDisk(c: Chain, d: Disk, q: Queues, dead: seq<WriterRef>, target: WriterRef): Disk
    requires Place(c, At(q, target), Plan(q, dead)).Some?
  {
    var plan := Plan(q, dead);
    var t := Place(c, At(q, target), plan).value;
    var placed := PlaceRows(c, d, target, At(q, target), plan);
    DropAll(if plan == [] then placed else PutState(placed, target, t.nextSeq, t.head), dead)
  }

  // ---- the load ----

  function Greatest(s: set<nat>): (m: nat)
    requires s != {}
    ensures m in s && forall x :: x in s ==> x <= m
  {
    Ascending(s)[|s| - 1]
  }

  /** The queue as the load rebuilds it: its head is the hash of the last entry still pending. */
  function Rebuilt(next: nat, head: Digest, pending: map<nat, Entry>): Queue {
    if pending == map[] then Queue(next, head, pending)
    else
      var last := Greatest(pending.Keys);
      Queue(Max(next, last + 1), pending[last].hash, pending)
  }

  function LoadPending(d: Disk, w: WriterRef): map<nat, Entry> {
    map s | s in (set k | k in d.rows && k.0 == w :: k.1) :: d.rows[(w, s)]
  }

  function LoadQueue(d: Disk, w: WriterRef): Queue {
    var (next, head) := if w in d.states then d.states[w] else (1, GENESIS);
    Rebuilt(next, head, LoadPending(d, w))
  }

  function Load(d: Disk): Queues {
    map w | w in d.states.Keys + (set k | k in d.rows :: k.0) :: LoadQueue(d, w)
  }

  // ---- memory and disk agree ----

  ghost predicate StatesMirror(q: Queues, states: States, astray: set<WriterRef>) {
    && (forall w :: w in q <==> w in states)
    && (forall w :: w in q ==> states[w].0 == q[w].nextSeq && (w in astray || states[w].1 == q[w].head))
  }

  ghost predicate RowsMirror(q: Queues, rows: Rows) {
    && (forall w, s: nat :: Holds(q, w, s) <==> (w, s) in rows)
    && (forall w, s: nat :: Holds(q, w, s) ==> rows[(w, s)] == q[w].pending[s])
  }

  /** The tables hold exactly the queues, but for the heads of the writers `astray`. */
  ghost predicate Mirrors(q: Queues, d: Disk, astray: set<WriterRef>) {
    StatesMirror(q, d.states, astray) && RowsMirror(q, d.rows)
  }

  lemma MirrorsState(q: Queues, d: Disk, astray: set<WriterRef>, w: WriterRef, next: nat, head: Digest)
    requires Mirrors(q, d, astray)
    ensures Mirrors(q[w := Queue(next, head, At(q, w).pending)], PutState(d, w, next, head), astray - {w})
  {
    var q' := q[w := Queue(next, head, At(q, w).pending)];
    assert forall v, s: nat :: Holds(q', v, s) <==> Holds(q, v, s);
  }

  lemma MirrorsLoosens(q: Queues, d: Disk, astray: set<WriterRef>, wider: set<WriterRef>)
    requires Mirrors(q, d, astray) && (forall w :: w in astray && w in q ==> w in wider)
    ensures Mirrors(q, d, wider)
  {}

  lemma MirrorsRow(q: Queues, d: Disk, astray: set<WriterRef>, w: WriterRef, s: nat, e: Entry)
    requires Mirrors(q, d, astray) && w in q
    ensures Mirrors(q[w := q[w].(pending := q[w].pending[s := e])], PutRow(d, w, s, e), astray)
  {
    var q' := q[w := q[w].(pending := q[w].pending[s := e])];
    assert forall v, r: nat :: Holds(q', v, r) <==> Holds(q, v, r) || (v == w && r == s);
  }

  lemma MirrorsDropRow(q: Queues, d: Disk, astray: set<WriterRef>, w: WriterRef, s: nat)
    requires Mirrors(q, d, astray) && w in q
    ensures Mirrors(q[w := q[w].(pending := q[w].pending - {s})], DropRow(d, w, s), astray)
  {
    var q' := q[w := q[w].(pending := q[w].pending - {s})];
    assert forall v, r: nat :: Holds(q', v, r) <==> Holds(q, v, r) && !(v == w && r == s);
  }

  lemma MirrorsDropWriter(q: Queues, d: Disk, astray: set<WriterRef>, w: WriterRef)
    requires Mirrors(q, d, astray)
    ensures Mirrors(q - {w}, DropWriter(d, w), astray)
  {
    assert forall v, r: nat :: Holds(q - {w}, v, r) <==> Holds(q, v, r) && v != w;
  }

  function KeysOf(dead: seq<WriterRef>): set<Digest> { set w | w in dead && w.Device? :: w.key }

  lemma WithoutFirst(q: Queues, dead: seq<WriterRef>)
    requires dead != []
    ensures Without(q, dead) == Without(q - {dead[0]}, dead[1..])
  {
    assert dead == [dead[0]] + dead[1..];
  }

  lemma {:induction false} MirrorsDropAll(q: Queues, d: Disk, astray: set<WriterRef>, dead: seq<WriterRef>)
    requires Mirrors(q, d, astray)
    ensures Mirrors(Without(q, dead), DropAll(d, dead), astray)
    decreases |dead|
  {
    if dead == [] {
      assert Without(q, dead) == q;
    } else {
      var kept := if dead[0].Device? then d.(retiredKeys := d.retiredKeys + {dead[0].key}) else d;
      MirrorsDropWriter(q, kept, astray, dead[0]);
      MirrorsDropAll(q - {dead[0]}, DropWriter(kept, dead[0]), astray, dead[1..]);
      WithoutFirst(q, dead);
    }
  }

  lemma {:induction false} DropAllRetires(d: Disk, dead: seq<WriterRef>)
    ensures DropAll(d, dead).retiredKeys == d.retiredKeys + KeysOf(dead)
    ensures DropAll(d, dead).retires == d.retires
    decreases |dead|
  {
    if dead != [] {
      var kept := if dead[0].Device? then d.(retiredKeys := d.retiredKeys + {dead[0].key}) else d;
      DropAllRetires(DropWriter(kept, dead[0]), dead[1..]);
      assert dead == [dead[0]] + dead[1..];
      assert KeysOf(dead) == KeysOf([dead[0]]) + KeysOf(dead[1..]);
    }
  }

  lemma MirrorsExtend(c: Chain, q: Queues, d: Disk, astray: set<WriterRef>, w: WriterRef, changeset: Bytes, position: nat, origin: Option<Provenance>)
    requires Mirrors(q, d, astray) && Extend(c, At(q, w), changeset, position, origin).Some?
    ensures var t := Extend(c, At(q, w), changeset, position, origin).value;
            var s := At(q, w).nextSeq;
            Mirrors(q[w := t], PutRow(PutState(d, w, t.nextSeq, t.head), w, s, t.pending[s]), astray - {w})
  {
    var t := Extend(c, At(q, w), changeset, position, origin).value;
    var s := At(q, w).nextSeq;
    MirrorsState(q, d, astray, w, t.nextSeq, t.head);
    var q1 := q[w := Queue(t.nextSeq, t.head, At(q, w).pending)];
    MirrorsRow(q1, PutState(d, w, t.nextSeq, t.head), astray - {w}, w, s, t.pending[s]);
    assert q1[w := q1[w].(pending := q1[w].pending[s := t.pending[s]])] == q[w := t];
  }

  lemma {:induction false} MirrorsPlace(c: Chain, q: Queues, d: Disk, astray: set<WriterRef>, target: WriterRef, t: Queue, plan: seq<Carried>)
    requires Mirrors(q, d, astray) && target in q && q[target].pending == t.pending
    requires Place(c, t, plan).Some?
    ensures Mirrors(q[target := q[target].(pending := Place(c, t, plan).value.pending)],
                    PlaceRows(c, d, target, t, plan), astray)
    decreases |plan|
  {
    if plan == [] {
      assert q[target := q[target].(pending := t.pending)] == q;
    } else {
      var e := plan[0];
      var next := Extend(c, t, e.entry.changeset, e.entry.position, Origin(e.source, e.originalSeq, e.entry)).value;
      var added := next.pending[t.nextSeq];
      MirrorsRow(q, d, astray, target, t.nextSeq, added);
      var q1 := q[target := q[target].(pending := next.pending)];
      MirrorsPlace(c, q1, PutRow(d, target, t.nextSeq, added), astray, target, next, plan[1..]);
      var last := Place(c, t, plan).value.pending;
      assert q1[target := q1[target].(pending := last)] == q[target := q[target].(pending := last)];
    }
  }

  /** The state row and the pending rows are in different tables, so their order is no matter. */
  lemma {:induction false} PlaceRowsFrame(c: Chain, d: Disk, target: WriterRef, t: Queue, plan: seq<Carried>, next: nat, head: Digest)
    requires Place(c, t, plan).Some?
    ensures PlaceRows(c, PutState(d, target, next, head), target, t, plan) == PutState(PlaceRows(c, d, target, t, plan), target, next, head)
    ensures PlaceRows(c, d, target, t, plan).retiredKeys == d.retiredKeys
    ensures PlaceRows(c, d, target, t, plan).retires == d.retires
    decreases |plan|
  {
    if plan != [] {
      var e := plan[0];
      var to := Extend(c, t, e.entry.changeset, e.entry.position, Origin(e.source, e.originalSeq, e.entry)).value;
      PlaceRowsFrame(c, PutRow(d, target, t.nextSeq, to.pending[t.nextSeq]), target, to, plan[1..], next, head);
    }
  }

  lemma MirrorsPlaced(c: Chain, q: Queues, d: Disk, astray: set<WriterRef>, target: WriterRef, plan: seq<Carried>)
    requires Mirrors(q, d, astray) && Place(c, At(q, target), plan).Some?
    ensures var t := Place(c, At(q, target), plan).value;
            Mirrors(q[target := t], PutState(PlaceRows(c, d, target, At(q, target), plan), target, t.nextSeq, t.head), astray - {target})
  {
    var t := Place(c, At(q, target), plan).value;
    var q1 := q[target := Queue(t.nextSeq, t.head, At(q, target).pending)];
    MirrorsState(q, d, astray, target, t.nextSeq, t.head);
    MirrorsPlace(c, q1, PutState(d, target, t.nextSeq, t.head), astray - {target}, target, At(q, target), plan);
    PlaceRowsFrame(c, d, target, At(q, target), plan, t.nextSeq, t.head);
    assert q1[target := q1[target].(pending := t.pending)] == q[target := t];
  }

  /** A carry makes the same change in memory and on disk. */
  lemma MirrorsCarry(c: Chain, q: Queues, d: Disk, astray: set<WriterRef>, dead: seq<WriterRef>, target: WriterRef)
    requires Mirrors(q, d, astray) && Carry(c, q, dead, target).Some?
    ensures Mirrors(Carry(c, q, dead, target).value, CarryDisk(c, d, q, dead, target), astray)
  {
    var plan := Plan(q, dead);
    var t := Place(c, At(q, target), plan).value;
    var placed := PlaceRows(c, d, target, At(q, target), plan);
    if plan == [] {
      MirrorsDropAll(q, d, astray, dead);
    } else {
      MirrorsPlaced(c, q, d, astray, target, plan);
      MirrorsDropAll(q[target := t], PutState(placed, target, t.nextSeq, t.head), astray - {target}, dead);
      MirrorsLoosens(Carry(c, q, dead, target).value, CarryDisk(c, d, q, dead, target), astray - {target}, astray);
    }
  }

  /** A carry records every device key it retires, and nothing else. */
  lemma CarryRetires(c: Chain, q: Queues, d: Disk, dead: seq<WriterRef>, target: WriterRef)
    requires Carry(c, q, dead, target).Some?
    ensures CarryDisk(c, d, q, dead, target).retiredKeys == d.retiredKeys + KeysOf(dead)
    ensures CarryDisk(c, d, q, dead, target).retires == d.retires
  {
    var plan := Plan(q, dead);
    var t := Place(c, At(q, target), plan).value;
    var placed := PlaceRows(c, d, target, At(q, target), plan);
    PlaceRowsFrame(c, d, target, At(q, target), plan, t.nextSeq, t.head);
    DropAllRetires(if plan == [] then placed else PutState(placed, target, t.nextSeq, t.head), dead);
  }

  lemma RekeyedHolds(q: Queues, from: WriterRef, to: WriterRef, v: WriterRef, r: nat)
    requires from in q && to !in q
    ensures var q' := q[to := q[from]] - {from};
            && (Holds(q', v, r) <==> v != from && Holds(q, Renamed(v, from, to), r))
            && (Holds(q', v, r) ==> q'[v].pending[r] == q[Renamed(v, from, to)].pending[r])
  {}

  lemma RekeyedRow(q: Queues, rows: Rows, from: WriterRef, to: WriterRef, v: WriterRef, r: nat)
    requires RowsMirror(q, rows) && from in q && to !in q
    requires forall k :: k in rows ==> k.0 != to
    ensures var q' := q[to := q[from]] - {from};
            && (Holds(q', v, r) <==> (v, r) in RekeyRows(rows, from, to))
            && (Holds(q', v, r) ==> RekeyRows(rows, from, to)[(v, r)] == q'[v].pending[r])
  {
    RekeyedHolds(q, from, to, v, r);
    assert Holds(q, Renamed(v, from, to), r) <==> (Renamed(v, from, to), r) in rows;
  }

  lemma RowsMirrorRekey(q: Queues, rows: Rows, from: WriterRef, to: WriterRef)
    requires RowsMirror(q, rows) && from in q && to !in q
    ensures forall k :: k in rows ==> k.0 != to
    ensures RowsMirror(q[to := q[from]] - {from}, RekeyRows(rows, from, to))
  {
    forall k | k in rows ensures k.0 != to {
      assert Holds(q, k.0, k.1);
    }
    var q' := q[to := q[from]] - {from};
    forall v, r: nat
      ensures Holds(q', v, r) <==> (v, r) in RekeyRows(rows, from, to)
      ensures Holds(q', v, r) ==> RekeyRows(rows, from, to)[(v, r)] == q'[v].pending[r]
    {
      RekeyedRow(q, rows, from, to, v, r);
    }
  }

  lemma MirrorsRekey(q: Queues, d: Disk, astray: set<WriterRef>, from: WriterRef, to: WriterRef)
    requires Mirrors(q, d, astray) && from in q && to !in q
    ensures Rekey(d, from, to).Some?
    ensures Mirrors(q[to := q[from]] - {from}, Rekey(d, from, to).value, astray + {to})
  {
    RowsMirrorRekey(q, d.rows, from, to);
  }

  // ---- restart ----

  lemma LoadPendingMirrors(q: Queues, d: Disk, astray: set<WriterRef>, w: WriterRef)
    requires Mirrors(q, d, astray) && w in q
    ensures LoadPending(d, w) == q[w].pending
  {
    var loaded := LoadPending(d, w);
    forall s: nat ensures s in loaded <==> s in q[w].pending {
      assert Holds(q, w, s) <==> (w, s) in d.rows;
      if (w, s) in d.rows {
        var k := (w, s);
        assert k in d.rows && k.0 == w && k.1 == s;
      }
    }
    forall s: nat | s in q[w].pending ensures loaded[s] == q[w].pending[s] {
      assert Holds(q, w, s);
    }
  }

  lemma LoadKeys(q: Queues, d: Disk, astray: set<WriterRef>)
    requires Mirrors(q, d, astray)
    ensures Load(d).Keys == q.Keys
  {
    assert forall k :: k in d.rows ==> Holds(q, k.0, k.1);
  }

  /** The two queue maps differ in nothing but heads. */
  ghost predicate SameButHeads(q: Queues, q': Queues) {
    && q.Keys == q'.Keys
    && (forall w :: w in q ==> q'[w].nextSeq == q[w].nextSeq && q'[w].pending == q[w].pending)
  }

  /** The hash of a queue's last pending entry. */
  function LastHash(t: Queue): Digest
    requires t.pending != map[]
  {
    t.pending[Greatest(t.pending.Keys)].hash
  }

  /** The head comes back from a restart: the queue is empty, or its last pending entry is the one the head stands for. */
  predicate HeadReloads(t: Queue) { t.pending == map[] || t.head == LastHash(t) }

  /**
   Restart refinement, for every state: the load rebuilds exactly the queues in memory,
   sequences and entries, except that a queue with entries takes the hash of its last
   pending one as its head. So a queue comes back whole if and only if its head reloads.
   */
  lemma LoadRebuilds(q: Queues, d: Disk, astray: set<WriterRef>)
    requires Mirrors(q, d, astray) && QueuesOk(q)
    ensures SameButHeads(q, Load(d))
    ensures forall w :: w in q && q[w].pending != map[] ==> Load(d)[w].head == LastHash(q[w])
    ensures forall w :: w in q && (w !in astray || q[w].pending != map[]) ==> (Load(d)[w] == q[w] <==> HeadReloads(q[w]))
  {
    LoadKeys(q, d, astray);
    forall w | w in q
      ensures Load(d)[w].nextSeq == q[w].nextSeq && Load(d)[w].pending == q[w].pending
      ensures q[w].pending != map[] ==> Load(d)[w].head == LastHash(q[w])
      ensures w !in astray || q[w].pending != map[] ==> (Load(d)[w] == q[w] <==> HeadReloads(q[w]))
    {
      LoadPendingMirrors(q, d, astray, w);
      assert QueueOk(q[w]);
      assert Load(d)[w] == Rebuilt(d.states[w].0, d.states[w].1, q[w].pending);
    }
  }

  // ---- the tables as they are spelled ----

  datatype SpelledRow = SpelledRow(changeset: Bytes, hash: Digest, position: nat, origin: Option<(string, nat)>)

  function SpellRow(e: Entry): SpelledRow {
    SpelledRow(e.changeset, e.hash, e.position,
               match e.provenance
               case None => None
               case Some(p) => Some((WriterId(p.writer), p.seqNo)))
  }

  function ReadRow(row: SpelledRow): Entry {
    Entry(row.changeset, row.hash, row.position,
          match row.origin
          case None => None
          case Some((id, s)) =>
            match WriterFromId(id)
            case None => None
            case Some(w) => Some(Provenance(w, s)))
  }

  /** `_connetto_writers` and `_connetto_pending` with their text keys, read back skipping what does not parse. */
  ghost predicate Spells(states: map<string, (nat, Digest)>, rows: map<(string, nat), SpelledRow>, d: Disk) {
    && (forall id :: id in states <==> exists w :: w in d.states && id == WriterId(w))
    && (forall w :: w in d.states ==> WriterId(w) in states && states[WriterId(w)] == d.states[w])
    && (forall k :: k in rows <==> exists j :: j in d.rows && k == (WriterId(j.0), j.1))
    && (forall j :: j in d.rows ==> (WriterId(j.0), j.1) in rows && rows[(WriterId(j.0), j.1)] == SpellRow(d.rows[j]))
  }

  function ReadStates(states: map<string, (nat, Digest)>): set<(WriterRef, (nat, Digest))> {
    set id | id in states && WriterFromId(id).Some? :: (WriterFromId(id).value, states[id])
  }

  function ReadRows(rows: map<(string, nat), SpelledRow>): set<((WriterRef, nat), Entry)> {
    set k | k in rows && WriterFromId(k.0).Some? :: ((WriterFromId(k.0).value, k.1), ReadRow(rows[k]))
  }

  lemma RowRoundTrip(e: Entry)
    ensures ReadRow(SpellRow(e)) == e
  {
    if e.provenance.Some? {
      RoundTrip(e.provenance.value.writer);
    }
  }

  /** Reading the spelled tables yields every state and every row, under its own writer, and nothing else. */
  lemma NothingSkipped(states: map<string, (nat, Digest)>, rows: map<(string, nat), SpelledRow>, d: Disk)
    requires Spells(states, rows, d)
    ensures ReadStates(states) == d.states.Items
    ensures ReadRows(rows) == d.rows.Items
  {
    forall p ensures p in ReadStates(states) <==> p in d.states.Items {
      RoundTrip(p.0);
      if p in ReadStates(states) {
        var id :| id in states && WriterFromId(id).Some? && p == (WriterFromId(id).value, states[id]);
        var w :| w in d.states && id == WriterId(w);
        RoundTrip(w);
      }
    }
    forall p ensures p in ReadRows(rows) <==> p in d.rows.Items {
      RoundTrip(p.0.0);
      if p in ReadRows(rows) {
        var k :| k in rows && WriterFromId(k.0).Some? && p == ((WriterFromId(k.0).value, k.1), ReadRow(rows[k]));
        var j :| j in d.rows && k == (WriterId(j.0), j.1);
        RoundTrip(j.0);
        RowRoundTrip(d.rows[j]);
      }
      if p in d.rows.Items {
        RowRoundTrip(p.1);
        var k := (WriterId(p.0.0), p.0.1);
        assert k in rows && rows[k] == SpellRow(d.rows[p.0]);
      }
    }
  }
}
