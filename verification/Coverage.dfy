/**
 The share-key coverage protocol. A claim is a set of subjects the client durably says its
 cursor covers: a resume presents it, so it must stand only while the server accepted the
 keys held now and has processed every declaration sent.
 */
module Coverage {
  import opened Common

  type Sub = string
  type Key = string
  type Cursor = Bytes

  datatype Swap = Swap(id: nat, generation: nat)

  /** A ping in flight: the declarations counted before it, and the computed ones among them. */
  datatype Fence = Fence(nonce: nat, count: nat, subs: set<Sub>)

  /**
   The current wire, as the claims need it: frames sent so far, the frame of each computed
   subscription's latest declaration, the frame of the ping in flight, and the frames a
   pong has shown the server to have processed.
   */
  datatype Wire = Wire(frames: nat, declared: map<Sub, nat>, pingAt: nat, answered: nat)

  const FRESH_WIRE := Wire(0, map[], 0, 0)

  type Row = Option<(Cursor, Option<set<Key>>)>

  datatype Client = Client(
    cursor: Option<Cursor>, claim: Option<set<Key>>,
    generation: nat, settled: nat, swap: Option<Swap>, fence: Option<Fence>,
    computed: set<Sub>, count: nat, snapshots: set<Sub>, resyncing: set<Sub>,
    online: bool, replaying: bool, keys: set<Key>,
    row: Row, store: set<Key>,
    explicit: bool, wire: Wire)

  /** A device that never ran: nothing stored. */
  const NEW := Client(None, None, 0, 0, None, None, {}, 0, {}, {}, false, false, {}, None, {}, false, FRESH_WIRE)

  /**
   `live` are the keys alive when coverage is published, `expired` those dead when an
   expiry looks, `sent` whether the transport took the frame, `saved` whether the secret
   store took the key set.
   */
  datatype Event =
    | Open(resume: Option<Cursor>, builder: set<Key>, expired: set<Key>)
    | Attach
    | Replayed
    | Disconnect
    | Subscribe(sub: Sub, isComputed: bool)
    | Unsubscribe(sub: Sub)
    | Work(retry: bool, sent: bool, id: nat, due: bool, expired: set<Key>, live: set<Key>)
    | SwapAnswered(id: nat, live: set<Key>)
    | SwapLimited(id: nat)
    | DeclarationRefused(sub: Sub)
    | Pong(nonce: nat, live: set<Key>)
    | SnapshotBegin(sub: Sub)
    | SnapshotEnd(sub: Sub, cursor: Cursor, live: set<Key>)
    | LivePatch(cursor: Cursor)
    | Resync(sub: Sub, authorization: bool, aggregate: bool)
    | AddKey(key: Key, saved: bool)
    | RemoveKeys(dropped: set<Key>, saved: bool)
    | Expire(expired: set<Key>, persist: bool)
    | SavePending

  // ---- the operations ----

  /** Coverage is unknown: durably first, when there is a cursor to write it with. */
  function Invalidate(c: Client): Client {
    if c.claim.None? then c
    else c.(claim := None, row := if c.cursor.Some? then Some((c.cursor.value, None)) else c.row)
  }

  predicate Blocked(c: Client) {
    || c.claim.Some? || c.swap.Some? || c.fence.Some? || c.count != 0 || c.computed != {}
    || c.generation != c.settled || c.resyncing != {} || c.snapshots != {}
  }

  function Publish(c: Client, live: set<Key>): Client {
    if Blocked(c) || c.cursor.None? then c
    else c.(claim := Some(live * c.keys), row := Some((c.cursor.value, Some(live * c.keys))))
  }

  /** The stored keys and the builder's, without the expired ones. A difference from the store unclaims. */
  function LoadKeys(c: Client, builder: set<Key>, expired: set<Key>): Client {
    var keys := builder + c.store - expired;
    var c1 := if keys != c.store then Invalidate(c).(store := keys) else c;
    c1.(keys := keys)
  }

  /** A process start on what the last run left. An explicit resume cursor wins over the stored one. */
  function Opened(row: Row, store: set<Key>, resume: Option<Cursor>): Client {
    var (cursor, claim) :=
      if resume.Some? then (resume, None)
      else if row.Some? && row.value.0 != [] then (Some(row.value.0), row.value.1)
      else (None, None);
    Client(cursor, claim, 0, 0, None, None, {}, 0, {}, {}, false, false, {}, row, store, resume.Some?, FRESH_WIRE)
  }

  function Dropped(c: Client): Client {
    Client(c.cursor, c.claim, c.generation, c.settled, None, None, {}, 0, {}, c.resyncing,
           false, false, c.keys, c.row, c.store, c.explicit, FRESH_WIRE)
  }

  function Declare(c: Client, s: Sub, isComputed: bool): Client {
    var c1 := Invalidate(c);
    var c2 := if isComputed then
                c1.(computed := c1.computed + {s}, count := if s in c1.computed then c1.count else c1.count + 1,
                    wire := c1.wire.(declared := c1.wire.declared[s := c1.wire.frames]))
              else c1.(snapshots := c1.snapshots + {s});
    c2.(wire := c2.wire.(frames := c2.wire.frames + 1))
  }

  function SendSwap(c: Client, id: nat): Client {
    c.(swap := Some(Swap(id, c.generation)), wire := c.wire.(frames := c.wire.frames + 1))
  }

  function SendFence(c: Client, nonce: nat): Client {
    c.(fence := Some(Fence(nonce, c.count, c.computed)),
       wire := c.wire.(pingAt := c.wire.frames, frames := c.wire.frames + 1))
  }

  function ExpireKeys(c: Client, expired: set<Key>, persist: bool): Client {
    if c.keys * expired == {} then c
    else
      var c1 := Invalidate(c);
      var keys := c1.keys - expired;
      c1.(keys := keys, generation := c1.generation + 1, store := if persist then keys else c1.store)
  }

  /** The request due next, at most one, then expiry, then publication. */
  function Send(c: Client, retry: bool, sent: bool, id: nat): Client {
    if !c.online || c.replaying || !sent then c
    else if c.swap.None? && c.generation > c.settled && c.count == 0 && retry then SendSwap(c, id)
    else if c.fence.None? && c.claim.None? && c.count > 0 then SendFence(c, id)
    else c
  }

  function DoWork(c: Client, retry: bool, sent: bool, id: nat, due: bool, expired: set<Key>, live: set<Key>): Client {
    var c1 := Send(c, retry, sent, id);
    Publish(if due then ExpireKeys(c1, expired, false) else c1, live)
  }

  function Answered(c: Client, id: nat, live: set<Key>): Client {
    if c.swap.None? || c.swap.value.id != id then c
    else Publish(c.(settled := c.swap.value.generation, swap := None), live)
  }

  /** The matching pong: what the fence counted is processed, and what it listed is owed no more. */
  function Fenced(c: Client, nonce: nat): Client {
    if c.fence.None? || c.fence.value.nonce != nonce then c
    else
      var f := c.fence.value;
      c.(fence := None, count := Monus(c.count, f.count), computed := c.computed - f.subs,
         wire := c.wire.(answered := Max(c.wire.answered, c.wire.pingAt)))
  }

  /** A key change: unclaimed first, then stored, then held. Not stored, the held set stays. */
  function CommitKeys(c: Client, keys: set<Key>, saved: bool): Client {
    var c1 := Invalidate(c);
    if saved then c1.(keys := keys, store := keys, generation := c1.generation + 1) else c1
  }

  function Step(c: Client, e: Event): Client {
    match e
    case Open(resume, builder, expired) => LoadKeys(Opened(c.row, c.store, resume), builder, expired)
    case Attach => if c.online then c else c.(online := true, replaying := true, settled := c.generation, wire := FRESH_WIRE)
    case Replayed => c.(replaying := false)
    case Disconnect => Dropped(c)
    case Subscribe(s, isComputed) => if c.online then Declare(c, s, isComputed) else c
    case Unsubscribe(s) =>
      c.(snapshots := c.snapshots - {s}, resyncing := c.resyncing - {s}, computed := c.computed - {s},
         wire := c.wire.(declared := c.wire.declared - {s}))
    case Work(retry, sent, id, due, expired, live) => DoWork(c, retry, sent, id, due, expired, live)
    case SwapAnswered(id, live) => Answered(c, id, live)
    case SwapLimited(id) => if c.swap.Some? && c.swap.value.id == id then c.(swap := None) else c
    case DeclarationRefused(s) =>
      if c.fence.None? then c else c.(fence := Some(c.fence.value.(subs := c.fence.value.subs - {s})))
    case Pong(nonce, live) =>
      if c.fence.Some? && c.fence.value.nonce == nonce then Publish(Fenced(c, nonce), live) else c
    case SnapshotBegin(s) => if c.online then c.(snapshots := c.snapshots + {s}) else c
    case SnapshotEnd(s, cursor, live) =>
      var c1 := if cursor == [] then c else c.(cursor := Some(cursor), row := Some((cursor, c.claim)));
      Publish(c1.(snapshots := c1.snapshots - {s}, resyncing := c1.resyncing - {s}), live)
    case LivePatch(cursor) => c.(cursor := Some(cursor), row := Some((cursor, c.claim)))
    case Resync(s, authorization, aggregate) =>
      var c1 := if authorization then Invalidate(c) else c;
      if aggregate then c1 else c1.(resyncing := c1.resyncing + {s})
    case AddKey(k, saved) => if k in c.keys then c else CommitKeys(c, c.keys + {k}, saved)
    case RemoveKeys(dropped, saved) => if c.keys * dropped == {} then c else CommitKeys(c, c.keys - dropped, saved)
    case Expire(expired, persist) => ExpireKeys(c, expired, persist)
    case SavePending => c.(store := c.keys)
  }

  // ---- soundness of the claim ----

  /** What a claim stands for. */
  ghost predicate Sound(c: Client) {
    c.claim.Some? ==>
      c.generation == c.settled && c.swap.None? && c.fence.None? && c.count == 0 && c.computed == {} && c.claim.value <= c.keys
  }

  ghost predicate Standing(c: Client) {
    && c.settled <= c.generation
    && (c.swap.Some? ==> c.settled <= c.swap.value.generation <= c.generation)
    && (c.fence.Some? ==> 0 < c.fence.value.count <= c.count && c.claim.None?)
    && (!c.online ==> c.swap.None? && c.fence.None? && c.computed == {} && c.count == 0 && c.wire.declared == map[])
    && c.keys <= c.store
  }

  /** Without an explicit resume cursor the tables say what memory says. */
  ghost predicate Durable(c: Client) {
    && (c.claim.Some? ==> c.cursor.Some?)
    && (!c.explicit ==>
          && (if c.cursor.Some? then c.row == Some((c.cursor.value, c.claim)) else c.row.None? || c.row.value.0 == [])
          && StoredSound(c.row, c.store))
  }

  /** A stored claim names only keys the store still holds. */
  ghost predicate StoredSound(row: Row, store: set<Key>) {
    row.Some? && row.value.0 != [] && row.value.1.Some? ==> row.value.1.value <= store
  }

  ghost predicate Inv(c: Client) { Sound(c) && Standing(c) && Durable(c) }

  lemma InvalidateInv(c: Client)
    requires Inv(c)
    ensures Inv(Invalidate(c)) && Invalidate(c).claim.None?
    ensures Invalidate(c) == c.(claim := None, row := Invalidate(c).row)
  {}

  lemma PublishInv(c: Client, live: set<Key>)
    requires Inv(c)
    ensures Inv(Publish(c, live))
  {}

  lemma ExpireInv(c: Client, expired: set<Key>, persist: bool)
    requires Inv(c)
    ensures Inv(ExpireKeys(c, expired, persist))
  {
    InvalidateInv(c);
  }

  lemma CommitInv(c: Client, keys: set<Key>, saved: bool)
    requires Inv(c)
    ensures Inv(CommitKeys(c, keys, saved))
  {
    InvalidateInv(c);
  }

  lemma SendInv(c: Client, retry: bool, sent: bool, id: nat)
    requires Inv(c)
    ensures Inv(Send(c, retry, sent, id))
  {}

  lemma OpenInv(c: Client, resume: Option<Cursor>, builder: set<Key>, expired: set<Key>)
    requires Inv(c) && (!c.explicit || resume.Some?)
    ensures Inv(LoadKeys(Opened(c.row, c.store, resume), builder, expired))
  {}

  lemma DeclareInv(c: Client, s: Sub, isComputed: bool)
    requires Inv(c) && c.online
    ensures Inv(Declare(c, s, isComputed))
  {
    InvalidateInv(c);
  }

  lemma WorkInv(c: Client, retry: bool, sent: bool, id: nat, due: bool, expired: set<Key>, live: set<Key>)
    requires Inv(c)
    ensures Inv(DoWork(c, retry, sent, id, due, expired, live))
  {
    SendInv(c, retry, sent, id);
    var c1 := Send(c, retry, sent, id);
    ExpireInv(c1, expired, false);
    PublishInv(if due then ExpireKeys(c1, expired, false) else c1, live);
  }

  lemma FencedInv(c: Client, nonce: nat)
    requires Inv(c)
    ensures Inv(Fenced(c, nonce))
  {}

  lemma SnapshotEndInv(c: Client, s: Sub, cursor: Cursor, live: set<Key>)
    requires Inv(c)
    ensures Inv(Step(c, SnapshotEnd(s, cursor, live)))
  {
    var c1 := if cursor == [] then c else c.(cursor := Some(cursor), row := Some((cursor, c.claim)));
    var c2 := c1.(snapshots := c1.snapshots - {s}, resyncing := c1.resyncing - {s});
    assert Inv(c2);
    PublishInv(c2, live);
  }

  /** Events that neither claim, unclaim nor change the keys. */
  lemma QuietInv(c: Client, e: Event)
    requires Inv(c)
    requires e.Attach? || e.Replayed? || e.Disconnect? || e.Unsubscribe? || e.SwapLimited? || e.DeclarationRefused?
             || e.SnapshotBegin? || e.LivePatch? || e.SavePending?
    ensures Inv(Step(c, e))
  {}

  /** Every operation keeps the claim sound, and the tables in step with memory. */
  lemma StepInv(c: Client, e: Event)
    requires Inv(c) && (e.Open? ==> !c.explicit || e.resume.Some?)
    ensures Inv(Step(c, e))
  {
    match e
    case Open(resume, builder, expired) => OpenInv(c, resume, builder, expired);
    case Work(retry, sent, id, due, expired, live) => WorkInv(c, retry, sent, id, due, expired, live);
    case Subscribe(s, isComputed) =>
      if c.online {
        DeclareInv(c, s, isComputed);
      }
    case SwapAnswered(id, live) =>
      if c.swap.Some? && c.swap.value.id == id {
        PublishInv(c.(settled := c.swap.value.generation, swap := None), live);
      }
    case Pong(nonce, live) =>
      FencedInv(c, nonce);
      PublishInv(Fenced(c, nonce), live);
    case SnapshotEnd(s, cursor, live) => SnapshotEndInv(c, s, cursor, live);
    case Resync(s, authorization, aggregate) => InvalidateInv(c);
    case AddKey(k, saved) => CommitInv(c, c.keys + {k}, saved);
    case RemoveKeys(dropped, saved) => CommitInv(c, c.keys - dropped, saved);
    case Expire(expired, persist) => ExpireInv(c, expired, persist);
    case _ => QuietInv(c, e);
  }
}
