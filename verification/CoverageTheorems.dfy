/** What the coverage protocol promises over runs, crashes included. */
module CoverageTheorems {
  import opened Common
  import opened Coverage

  // ---- every declaration fenced ----

  function FenceCount(c: Client): nat { if c.fence.Some? then c.fence.value.count else 0 }

  /** The server is known to have processed the subscription's latest declaration. */
  predicate Processed(c: Client, s: Sub)
    requires s in c.wire.declared
  {
    c.wire.declared[s] < c.wire.answered
  }

  ghost predicate AllProcessed(c: Client) { forall s :: s in c.wire.declared ==> Processed(c, s) }

  /**
   Why a declaration cannot be claimed over unprocessed: it is processed, the ping in
   flight is behind it, it is listed and will stay listed, or one more declaration is
   counted than the ping in flight settles.
   */
  ghost predicate Covered(c: Client, s: Sub)
    requires s in c.wire.declared
  {
    || Processed(c, s)
    || (c.fence.Some? && c.wire.declared[s] < c.wire.pingAt)
    || (s in c.computed && !(c.fence.Some? && s in c.fence.value.subs))
    || FenceCount(c) < c.count
  }

  /** Declared again behind a ping that already lists it: counted by no one. */
  ghost predicate Escaping(c: Client, s: Sub)
    requires s in c.wire.declared
  {
    && c.fence.Some? && s in c.computed && s in c.fence.value.subs
    && c.wire.pingAt <= c.wire.declared[s] && c.count == FenceCount(c)
  }

  ghost predicate WireOk(c: Client) {
    && c.wire.answered <= c.wire.frames
    && (c.fence.Some? ==> c.wire.answered <= c.wire.pingAt < c.wire.frames)
    && (forall s :: s in c.wire.declared ==> c.wire.declared[s] < c.wire.frames)
  }

  ghost predicate Tracked(c: Client) {
    WireOk(c) && forall s :: s in c.wire.declared ==> Covered(c, s) || Escaping(c, s)
  }

  /** The one step that can claim too much: the pong of a ping some declaration escaped. */
  ghost predicate EscapingPong(c: Client, e: Event) {
    e.Pong? && c.fence.Some? && c.fence.value.nonce == e.nonce && exists s :: s in c.wire.declared && Escaping(c, s)
  }

  lemma ClaimIsProcessed(c: Client)
    requires Inv(c) && Tracked(c) && c.claim.Some?
    ensures AllProcessed(c)
  {}

  /** Publication, expiry, key changes and unclaiming leave the fencing as it is. */
  ghost predicate SameFencing(c: Client, d: Client) {
    d.fence == c.fence && d.computed == c.computed && d.count == c.count && d.wire == c.wire
  }

  lemma SameFencingTracks(c: Client, d: Client)
    requires Tracked(c) && SameFencing(c, d)
    ensures Tracked(d)
  {}

  lemma DeclareTracks(c: Client, s: Sub, isComputed: bool)
    requires Standing(c) && Tracked(c)
    ensures Tracked(Declare(c, s, isComputed))
  {}

  lemma SendTracks(c: Client, retry: bool, sent: bool, id: nat)
    requires Tracked(c)
    ensures Tracked(Send(c, retry, sent, id))
  {}

  lemma UnsubscribeTracks(c: Client, s: Sub)
    requires Tracked(c)
    ensures Tracked(Step(c, Unsubscribe(s)))
  {}

  lemma RefusedTracks(c: Client, s: Sub)
    requires Tracked(c)
    ensures Tracked(Step(c, DeclarationRefused(s)))
  {}

  lemma QuietFencing(c: Client, e: Event)
    requires !e.Subscribe? && !e.Unsubscribe? && !e.Work? && !e.DeclarationRefused? && !e.Pong?
    requires !e.Open? && !e.Attach? && !e.Disconnect?
    ensures SameFencing(c, Step(c, e))
  {}

  lemma WorkTracks(c: Client, retry: bool, sent: bool, id: nat, due: bool, expired: set<Key>, live: set<Key>)
    requires Tracked(c)
    ensures Tracked(DoWork(c, retry, sent, id, due, expired, live))
  {
    SendTracks(c, retry, sent, id);
    SameFencingTracks(Send(c, retry, sent, id), DoWork(c, retry, sent, id, due, expired, live));
  }

  lemma PongTracks(c: Client, nonce: nat, live: set<Key>)
    requires Standing(c) && Tracked(c) && !EscapingPong(c, Pong(nonce, live))
    requires c.fence.Some? && c.fence.value.nonce == nonce
    ensures Tracked(Publish(Fenced(c, nonce), live))
  {}

  lemma WireEventTracks(c: Client, e: Event)
    requires Standing(c) && Tracked(c) && (e.Open? || e.Attach? || e.Disconnect?)
    ensures Tracked(Step(c, e))
  {}

  lemma QuietTracks(c: Client, e: Event)
    requires Tracked(c) && !e.Subscribe? && !e.Unsubscribe? && !e.Work? && !e.DeclarationRefused? && !e.Pong?
    requires !e.Open? && !e.Attach? && !e.Disconnect?
    ensures Tracked(Step(c, e))
  {
    QuietFencing(c, e);
    SameFencingTracks(c, Step(c, e));
  }

  lemma StepTracks(c: Client, e: Event)
    requires Standing(c) && Tracked(c) && !EscapingPong(c, e)
    ensures Tracked(Step(c, e))
  {
    if e.Subscribe? && c.online {
      DeclareTracks(c, e.sub, e.isComputed);
    } else if e.Unsubscribe? {
      UnsubscribeTracks(c, e.sub);
    } else if e.Work? {
      WorkTracks(c, e.retry, e.sent, e.id, e.due, e.expired, e.live);
    } else if e.DeclarationRefused? {
      RefusedTracks(c, e.sub);
    } else if e.Pong? && c.fence.Some? && c.fence.value.nonce == e.nonce {
      PongTracks(c, e.nonce, e.live);
    } else if e.Open? || e.Attach? || e.Disconnect? {
      WireEventTracks(c, e);
    } else if !e.Subscribe? && !e.Pong? {
      QuietTracks(c, e);
    }
  }

  /** What keeps the matching pong from publishing, all of it in the client's hands before the pong. */
  predicate Withheld(c: Client)
    requires c.fence.Some?
  {
    || c.cursor.None? || c.swap.Some? || c.generation != c.settled || c.resyncing != {} || c.snapshots != {}
    || c.count != c.fence.value.count || !(c.computed <= c.fence.value.subs)
  }

  lemma PongClaims(c: Client, nonce: nat, live: set<Key>)
    requires Standing(c) && c.fence.Some? && c.fence.value.nonce == nonce
    ensures Step(c, Pong(nonce, live)).claim.Some? <==> !Withheld(c)
  {
    SubsetByDifference(c.computed, c.fence.value.subs);
  }

  lemma SubsetByDifference(a: set<Sub>, b: set<Sub>)
    ensures a <= b <==> a - b == {}
  {
    if a - b == {} {
      forall x | x in a ensures x in b {
        assert x !in a - b;
      }
    }
  }

  /** A pong claims only over processed declarations if and only if its claim is withheld or none escaped its ping. */
  lemma PongExactly(c: Client, nonce: nat, live: set<Key>)
    requires Inv(c) && Tracked(c) && c.fence.Some? && c.fence.value.nonce == nonce
    ensures var d := Step(c, Pong(nonce, live));
            (d.claim.Some? ==> AllProcessed(d)) <==> Withheld(c) || forall s :: s in c.wire.declared ==> !Escaping(c, s)
  {
    var d := Step(c, Pong(nonce, live));
    assert d.wire.declared == c.wire.declared && d.wire.answered == c.wire.pingAt;
    PongClaims(c, nonce, live);
    if forall s :: s in c.wire.declared ==> !Escaping(c, s) {
      StepInv(c, Pong(nonce, live));
      StepTracks(c, Pong(nonce, live));
      if d.claim.Some? {
        ClaimIsProcessed(d);
      }
    } else {
      var s :| s in c.wire.declared && Escaping(c, s);
      assert !Processed(d, s);
    }
  }

  // ---- runs ----

  ghost predicate IsRun(trace: seq<Client>, events: seq<Event>) {
    && |trace| == |events| + 1 && trace[0] == NEW
    && (forall i :: 0 <= i < |events| ==>
          trace[i + 1] == Step(trace[i], events[i]) && (events[i].Open? ==> events[i].resume.None?))
  }

  lemma {:induction false} RunInv(trace: seq<Client>, events: seq<Event>, i: nat)
    requires IsRun(trace, events) && i < |trace|
    ensures Inv(trace[i]) && !trace[i].explicit
  {
    if i > 0 {
      RunInv(trace, events, i - 1);
      StepInv(trace[i - 1], events[i - 1]);
      KeepsImplicit(trace[i - 1], events[i - 1]);
    }
  }

  lemma KeepsImplicit(c: Client, e: Event)
    requires !c.explicit && (e.Open? ==> e.resume.None?)
    ensures !Step(c, e).explicit
  {}

  /**
   Coverage soundness: wherever a run has taken the client, a claim means the keys held are
   the accepted ones, no swap or fence is in flight and nothing is counted or listed as
   unfenced. The stored pair is the pair in memory.
   */
  lemma ClaimsAreSound(trace: seq<Client>, events: seq<Event>, i: nat)
    requires IsRun(trace, events) && i < |trace|
    ensures trace[i].claim.Some? ==>
              && trace[i].generation == trace[i].settled && trace[i].swap.None? && trace[i].fence.None?
              && trace[i].count == 0 && trace[i].computed == {} && trace[i].claim.value <= trace[i].keys
    ensures trace[i].cursor.Some? ==> trace[i].row == Some((trace[i].cursor.value, trace[i].claim))
    ensures trace[i].cursor.None? ==> trace[i].claim.None?
  {
    RunInv(trace, events, i);
  }

  // ---- what escapes, in calls ----

  /** The subscription is declared again as computed while the fence in flight lists it. */
  predicate Redeclares(c: Client, e: Event, s: Sub) {
    e == Subscribe(s, true) && c.online && c.fence.Some? && s in c.computed && s in c.fence.value.subs
  }

  lemma DeclareEscapes(c: Client, t: Sub, isComputed: bool, s: Sub)
    requires Standing(c) && WireOk(c) && c.online
    requires s in Declare(c, t, isComputed).wire.declared && Escaping(Declare(c, t, isComputed), s)
    ensures (s in c.wire.declared && Escaping(c, s)) || Redeclares(c, Subscribe(t, isComputed), s)
  {}

  lemma WorkEscapes(c: Client, e: Event, s: Sub)
    requires Standing(c) && WireOk(c) && e.Work? && s in Step(c, e).wire.declared && Escaping(Step(c, e), s)
    ensures s in c.wire.declared && Escaping(c, s)
  {
    var c1 := Send(c, e.retry, e.sent, e.id);
    assert SameFencing(c1, Step(c, e));
    assert Escaping(c1, s);
  }

  lemma PongEscapes(c: Client, nonce: nat, live: set<Key>, s: Sub)
    requires s in Step(c, Pong(nonce, live)).wire.declared && Escaping(Step(c, Pong(nonce, live)), s)
    ensures s in c.wire.declared && Escaping(c, s)
  {}

  /** Only that escapes. */
  lemma OnlyRedeclaringEscapes(c: Client, e: Event, s: Sub)
    requires Standing(c) && WireOk(c) && s in Step(c, e).wire.declared && Escaping(Step(c, e), s)
    ensures (s in c.wire.declared && Escaping(c, s)) || Redeclares(c, e, s)
  {
    match e
    case Subscribe(t, isComputed) =>
      if c.online {
        DeclareEscapes(c, t, isComputed, s);
      }
    case Work(_, _, _, _, _, _) => WorkEscapes(c, e, s);
    case Pong(nonce, live) => PongEscapes(c, nonce, live, s);
    case Open(_, _, _) =>
    case Attach =>
    case Disconnect =>
    case Unsubscribe(_) =>
    case DeclarationRefused(_) =>
    case _ => QuietFencing(c, e);
  }

  ghost predicate Listed(c: Client) { forall s :: s in c.computed ==> s in c.wire.declared }

  lemma DeclareListed(c: Client, s: Sub, isComputed: bool)
    requires WireOk(c) && Listed(c)
    ensures WireOk(Declare(c, s, isComputed)) && Listed(Declare(c, s, isComputed))
  {}

  lemma PongListed(c: Client, nonce: nat, live: set<Key>)
    requires WireOk(c) && Listed(c)
    ensures WireOk(Step(c, Pong(nonce, live))) && Listed(Step(c, Pong(nonce, live)))
  {}

  lemma WorkListed(c: Client, retry: bool, sent: bool, id: nat, due: bool, expired: set<Key>, live: set<Key>)
    requires WireOk(c) && Listed(c)
    ensures WireOk(DoWork(c, retry, sent, id, due, expired, live)) && Listed(DoWork(c, retry, sent, id, due, expired, live))
  {
    var c1 := Send(c, retry, sent, id);
    assert WireOk(c1) && Listed(c1);
    assert SameFencing(c1, DoWork(c, retry, sent, id, due, expired, live));
  }

  /** Frames are numbered in order, and every computed subscription was declared on this wire. */
  lemma StepWireOk(c: Client, e: Event)
    requires Standing(c) && WireOk(c) && Listed(c)
    ensures WireOk(Step(c, e)) && Listed(Step(c, e))
  {
    match e
    case Subscribe(s, isComputed) => DeclareListed(c, s, isComputed);
    case Work(retry, sent, id, due, expired, live) => WorkListed(c, retry, sent, id, due, expired, live);
    case Pong(nonce, live) => PongListed(c, nonce, live);
    case Open(_, _, _) =>
    case Attach =>
    case Disconnect =>
    case Unsubscribe(_) =>
    case DeclarationRefused(_) =>
    case _ => QuietFencing(c, e);
  }

  lemma {:induction false} RunWireOk(trace: seq<Client>, events: seq<Event>, i: nat)
    requires IsRun(trace, events) && i < |trace|
    ensures WireOk(trace[i]) && Listed(trace[i])
  {
    if i > 0 {
      RunWireOk(trace, events, i - 1);
      RunInv(trace, events, i - 1);
      StepWireOk(trace[i - 1], events[i - 1]);
    }
  }

  /** The one fence stayed in flight from state `k` to state `i`. */
  ghost predicate FenceStands(trace: seq<Client>, k: nat, i: nat) {
    k <= i < |trace| && forall m :: k <= m <= i ==> trace[m].fence.Some?
  }

  ghost predicate RedeclaredAt(trace: seq<Client>, events: seq<Event>, k: nat, i: nat, s: Sub) {
    k < i < |trace| && k < |events| && Redeclares(trace[k], events[k], s) && FenceStands(trace, k, i)
  }

  ghost predicate RedeclaredSince(trace: seq<Client>, events: seq<Event>, i: nat, s: Sub) {
    exists k: nat :: RedeclaredAt(trace, events, k, i, s)
  }

  lemma {:induction false} EscapedByRedeclaring(trace: seq<Client>, events: seq<Event>, i: nat, s: Sub)
    requires IsRun(trace, events) && i < |trace| && s in trace[i].wire.declared && Escaping(trace[i], s)
    ensures RedeclaredSince(trace, events, i, s)
  {
    if i > 0 {
      EscapedByStep(trace, events, i, s);
      if Redeclares(trace[i - 1], events[i - 1], s) {
        JustRedeclared(trace, events, i, s);
      } else {
        EscapedByRedeclaring(trace, events, i - 1, s);
        StillRedeclared(trace, events, i, s);
      }
    }
  }

  lemma EscapedByStep(trace: seq<Client>, events: seq<Event>, i: nat, s: Sub)
    requires IsRun(trace, events) && 0 < i < |trace| && s in trace[i].wire.declared && Escaping(trace[i], s)
    ensures (s in trace[i - 1].wire.declared && Escaping(trace[i - 1], s)) || Redeclares(trace[i - 1], events[i - 1], s)
  {
    RunInv(trace, events, i - 1);
    RunWireOk(trace, events, i - 1);
    OnlyRedeclaringEscapes(trace[i - 1], events[i - 1], s);
  }

  lemma JustRedeclared(trace: seq<Client>, events: seq<Event>, i: nat, s: Sub)
    requires 0 < i < |trace| && i <= |events| && trace[i].fence.Some? && Redeclares(trace[i - 1], events[i - 1], s)
    ensures RedeclaredSince(trace, events, i, s)
  {
    assert RedeclaredAt(trace, events, i - 1, i, s);
  }

  lemma StillRedeclared(trace: seq<Client>, events: seq<Event>, i: nat, s: Sub)
    requires 0 < i < |trace| && trace[i].fence.Some? && RedeclaredSince(trace, events, i - 1, s)
    ensures RedeclaredSince(trace, events, i, s)
  {
    var k: nat :| RedeclaredAt(trace, events, k, i - 1, s);
    assert RedeclaredAt(trace, events, k, i, s);
  }

  /** `s` was last declared behind the ping in flight. */
  ghost predicate Behind(c: Client, s: Sub) { s in c.wire.declared ==> c.wire.pingAt <= c.wire.declared[s] }

  lemma BehindStays(c: Client, e: Event, s: Sub)
    requires Standing(c) && WireOk(c) && c.fence.Some? && Step(c, e).fence.Some?
    requires Behind(c, s) || Redeclares(c, e, s)
    ensures Behind(Step(c, e), s)
  {
    if !e.Subscribe? && !e.Unsubscribe? && !e.Work? && !e.DeclarationRefused? && !e.Pong? && !e.Open? && !e.Attach? && !e.Disconnect? {
      QuietFencing(c, e);
    }
  }

  lemma {:induction false} RedeclaredIsBehind(trace: seq<Client>, events: seq<Event>, k: nat, i: nat, s: Sub)
    requires IsRun(trace, events) && RedeclaredAt(trace, events, k, i, s)
    ensures Behind(trace[i], s)
    decreases i
  {
    if k < i - 1 {
      RedeclaredEarlier(trace, events, k, i, s);
      RedeclaredIsBehind(trace, events, k, i - 1, s);
    }
    BehindByStep(trace, events, i, s);
  }

  lemma RedeclaredEarlier(trace: seq<Client>, events: seq<Event>, k: nat, i: nat, s: Sub)
    requires RedeclaredAt(trace, events, k, i, s) && k < i - 1
    ensures RedeclaredAt(trace, events, k, i - 1, s)
  {}

  lemma BehindByStep(trace: seq<Client>, events: seq<Event>, i: nat, s: Sub)
    requires IsRun(trace, events) && 0 < i < |trace| && trace[i - 1].fence.Some? && trace[i].fence.Some?
    requires Behind(trace[i - 1], s) || Redeclares(trace[i - 1], events[i - 1], s)
    ensures Behind(trace[i], s)
  {
    RunInv(trace, events, i - 1);
    RunWireOk(trace, events, i - 1);
    BehindStays(trace[i - 1], events[i - 1], s);
  }

  /** A declaration the ping in flight lists and the pong will settle, made again behind that ping. */
  ghost predicate Escapes(trace: seq<Client>, events: seq<Event>, i: nat, s: Sub)
    requires i < |trace|
  {
    && trace[i].fence.Some? && trace[i].count == trace[i].fence.value.count
    && s in trace[i].computed && s in trace[i].fence.value.subs && RedeclaredSince(trace, events, i, s)
  }

  /** On every run, what escapes is what the calls say. */
  lemma EscapingExactly(trace: seq<Client>, events: seq<Event>, i: nat, s: Sub)
    requires IsRun(trace, events) && i < |trace|
    ensures s in trace[i].wire.declared && Escaping(trace[i], s) <==> Escapes(trace, events, i, s)
  {
    RunWireOk(trace, events, i);
    if s in trace[i].wire.declared && Escaping(trace[i], s) {
      EscapedByRedeclaring(trace, events, i, s);
    }
    if Escapes(trace, events, i, s) {
      var k: nat :| RedeclaredAt(trace, events, k, i, s);
      RedeclaredIsBehind(trace, events, k, i, s);
    }
  }

  /** The matching pong of a ping some declaration escaped. */
  ghost predicate PongMisses(trace: seq<Client>, events: seq<Event>, i: nat)
    requires i < |trace| && i < |events|
  {
    && events[i].Pong? && trace[i].fence.Some? && trace[i].fence.value.nonce == events[i].nonce
    && exists s :: Escapes(trace, events, i, s)
  }

  lemma MissesIsEscaping(trace: seq<Client>, events: seq<Event>, i: nat)
    requires IsRun(trace, events) && i < |events|
    ensures PongMisses(trace, events, i) <==> EscapingPong(trace[i], events[i])
  {
    forall s ensures s in trace[i].wire.declared && Escaping(trace[i], s) <==> Escapes(trace, events, i, s) {
      EscapingExactly(trace, events, i, s);
    }
  }

  lemma {:induction false} RunTracked(trace: seq<Client>, events: seq<Event>, i: nat)
    requires IsRun(trace, events) && i < |trace|
    requires forall k :: 0 <= k < i ==> !PongMisses(trace, events, k)
    ensures Tracked(trace[i])
  {
    if i > 0 {
      RunTracked(trace, events, i - 1);
      RunInv(trace, events, i - 1);
      MissesIsEscaping(trace, events, i - 1);
      StepTracks(trace[i - 1], events[i - 1]);
    }
  }

  /** Until a pong misses a declaration, a claim also means the server processed every declaration. */
  lemma ClaimsAreFenced(trace: seq<Client>, events: seq<Event>, i: nat)
    requires IsRun(trace, events) && i < |trace| && trace[i].claim.Some?
    requires forall k :: 0 <= k < i ==> !PongMisses(trace, events, k)
    ensures AllProcessed(trace[i])
  {
    RunInv(trace, events, i);
    RunTracked(trace, events, i);
    ClaimIsProcessed(trace[i]);
  }

  /** So does every run that declares nothing again as computed under the fence that lists it. */
  lemma ClaimsAreFencedWithoutRedeclaring(trace: seq<Client>, events: seq<Event>, i: nat)
    requires IsRun(trace, events) && i < |trace| && trace[i].claim.Some?
    requires forall k, s :: 0 <= k < i ==> !Redeclares(trace[k], events[k], s)
    ensures AllProcessed(trace[i])
  {
    assert forall k, s :: 0 <= k < i ==> !Escapes(trace, events, k, s);
    ClaimsAreFenced(trace, events, i);
  }

  /** The first pong to miss a declaration claims too much exactly when nothing withholds its claim. */
  lemma OverclaimsExactly(trace: seq<Client>, events: seq<Event>, i: nat)
    requires IsRun(trace, events) && i < |events| && forall k :: 0 <= k < i ==> !PongMisses(trace, events, k)
    ensures trace[i + 1].claim.Some? && !AllProcessed(trace[i + 1]) <==> PongMisses(trace, events, i) && !Withheld(trace[i])
  {
    MissesIsEscaping(trace, events, i);
    if PongMisses(trace, events, i) {
      RunInv(trace, events, i);
      RunTracked(trace, events, i);
      PongExactly(trace[i], events[i].nonce, events[i].live);
    } else if trace[i + 1].claim.Some? {
      ClaimsAreFenced(trace, events, i + 1);
    }
  }

  /** A step claims only with a cursor, no snapshot open and no resync waiting for one. */
  lemma ClaimsWaitForRows(c: Client, e: Event)
    requires !e.Open? && c.claim.None? && Step(c, e).claim.Some?
    ensures Step(c, e).snapshots == {} && Step(c, e).resyncing == {} && Step(c, e).cursor.Some?
    ensures e.Work? || e.SwapAnswered? || e.Pong? || e.SnapshotEnd?
  {
    match e
    case Work(retry, sent, id, due, expired, live) =>
      var c1 := Send(c, retry, sent, id);
      assert c1.claim.None?;
      PublishedClear(if due then ExpireKeys(c1, expired, false) else c1, live);
    case SwapAnswered(id, live) => PublishedClear(c.(settled := c.swap.value.generation, swap := None), live);
    case Pong(nonce, live) => PublishedClear(Fenced(c, nonce), live);
    case SnapshotEnd(s, cursor, live) =>
      var c1 := if cursor == [] then c else c.(cursor := Some(cursor), row := Some((cursor, c.claim)));
      PublishedClear(c1.(snapshots := c1.snapshots - {s}, resyncing := c1.resyncing - {s}), live);
    case _ =>
  }

  lemma PublishedClear(c: Client, live: set<Key>)
    requires c.claim.None? && Publish(c, live).claim.Some?
    ensures Publish(c, live).snapshots == {} && Publish(c, live).resyncing == {} && Publish(c, live).cursor.Some?
  {}

  // ---- a refused declaration ----

  /** A computed declaration owed and counted by no fence. */
  ghost predicate Owed(c: Client, s: Sub) {
    s in c.computed && c.count == 0 && c.fence.None? && c.claim.None?
  }

  /** Events that end the wait of an owed declaration. */
  predicate Releases(e: Event, s: Sub) {
    e.Open? || e.Disconnect? || (e.Subscribe? && e.isComputed) || (e.Unsubscribe? && e.sub == s)
  }

  lemma RefusedIsOwed(c: Client, s: Sub, nonce: nat, live: set<Key>)
    requires Inv(c) && c.fence.Some? && c.fence.value.nonce == nonce && s in c.computed && c.count == c.fence.value.count
    ensures Owed(Step(Step(c, DeclarationRefused(s)), Pong(nonce, live)), s)
  {}

  lemma OwedStays(c: Client, e: Event, s: Sub)
    requires Owed(c, s) && !Releases(e, s)
    ensures Owed(Step(c, e), s)
  {
    match e
    case Work(_, _, _, _, _, _) =>
    case _ =>
  }

  /** No swap, pong, snapshot or key change ever claims while a refused declaration is owed. */
  lemma {:induction false} OwedBlocksClaims(trace: seq<Client>, events: seq<Event>, i: nat, j: nat, s: Sub)
    requires IsRun(trace, events) && i <= j < |trace| && Owed(trace[i], s)
    requires forall k :: i <= k < j ==> !Releases(events[k], s)
    ensures Owed(trace[j], s) && trace[j].claim.None?
  {
    if i < j {
      OwedBlocksClaims(trace, events, i, j - 1, s);
      OwedStays(trace[j - 1], events[j - 1], s);
    }
  }

  // ---- crashes inside an operation ----

  datatype Write = PutRow(cursor: Cursor, claim: Option<set<Key>>) | PutStore(keys: set<Key>)

  function Apply(d: (Row, set<Key>), w: Write): (Row, set<Key>) {
    match w
    case PutRow(cursor, claim) => (Some((cursor, claim)), d.1)
    case PutStore(keys) => (d.0, keys)
  }

  function ApplyAll(d: (Row, set<Key>), ws: seq<Write>): (Row, set<Key>)
    decreases |ws|
  {
    if ws == [] then d else ApplyAll(Apply(d, ws[0]), ws[1..])
  }

  function Unclaiming(c: Client): seq<Write> {
    if c.claim.Some? && c.cursor.Some? then [PutRow(c.cursor.value, None)] else []
  }

  function Claiming(c: Client, live: set<Key>): seq<Write> {
    if Blocked(c) || c.cursor.None? then [] else [PutRow(c.cursor.value, Some(live * c.keys))]
  }

  /** The durable writes of an operation, in the order the source makes them. */
  function Writes(c: Client, e: Event): seq<Write> {
    match e
    case Open(resume, builder, expired) =>
      var keys := builder + c.store - expired;
      if keys != c.store then Unclaiming(Opened(c.row, c.store, resume)) + [PutStore(keys)] else []
    case Subscribe(_, _) => if c.online then Unclaiming(c) else []
    case Work(retry, sent, id, due, expired, live) =>
      var c1 := Send(c, retry, sent, id);
      if due && c1.keys * expired != {} then Unclaiming(c1) + Claiming(ExpireKeys(c1, expired, false), live)
      else Claiming(c1, live)
    case SwapAnswered(id, live) =>
      if c.swap.None? || c.swap.value.id != id then []
      else Claiming(c.(settled := c.swap.value.generation, swap := None), live)
    case Pong(nonce, live) =>
      if c.fence.Some? && c.fence.value.nonce == nonce then Claiming(Fenced(c, nonce), live) else []
    case SnapshotEnd(s, cursor, live) =>
      var c1 := if cursor == [] then c else c.(cursor := Some(cursor));
      (if cursor == [] then [] else [PutRow(cursor, c.claim)])
      + Claiming(c1.(snapshots := c1.snapshots - {s}, resyncing := c1.resyncing - {s}), live)
    case LivePatch(cursor) => [PutRow(cursor, c.claim)]
    case Resync(_, authorization, _) => if authorization then Unclaiming(c) else []
    case AddKey(k, saved) =>
      if k in c.keys then [] else Unclaiming(c) + if saved then [PutStore(c.keys + {k})] else []
    case RemoveKeys(dropped, saved) =>
      if c.keys * dropped == {} then [] else Unclaiming(c) + if saved then [PutStore(c.keys - dropped)] else []
    case Expire(expired, persist) =>
      if c.keys * expired == {} then [] else Unclaiming(c) + if persist then [PutStore(c.keys - expired)] else []
    case SavePending => [PutStore(c.keys)]
    case _ => []
  }

  lemma AppliedTwo(d: (Row, set<Key>), a: seq<Write>, b: seq<Write>)
    requires |a| <= 1 && |b| <= 1
    ensures ApplyAll(d, a + b) == ApplyAll(ApplyAll(d, a), b)
  {}

  lemma AppliedOne(d: (Row, set<Key>), w: Write)
    ensures ApplyAll(d, [w]) == Apply(d, w) && ApplyAll(d, []) == d
  {}

  lemma UnclaimingIs(c: Client)
    ensures ApplyAll((c.row, c.store), Unclaiming(c)) == (Invalidate(c).row, Invalidate(c).store)
  {}

  lemma ClaimingIs(c: Client, live: set<Key>)
    ensures ApplyAll((c.row, c.store), Claiming(c, live)) == (Publish(c, live).row, Publish(c, live).store)
  {}

  lemma KeyWrites(c: Client, e: Event)
    requires e.AddKey? || e.RemoveKeys? || e.Expire? || e.SavePending?
    ensures ApplyAll((c.row, c.store), Writes(c, e)) == (Step(c, e).row, Step(c, e).store)
  {
    match e
    case AddKey(k, saved) => CommitWrites(c, c.keys + {k}, saved);
    case RemoveKeys(dropped, saved) => CommitWrites(c, c.keys - dropped, saved);
    case Expire(expired, persist) => CommitWrites(c, c.keys - expired, persist);
    case SavePending => AppliedOne((c.row, c.store), PutStore(c.keys));
  }

  /** An operation's durable effect is its writes, in order. */
  lemma DurableIsWrites(c: Client, e: Event)
    ensures ApplyAll((c.row, c.store), Writes(c, e)) == (Step(c, e).row, Step(c, e).store)
  {
    if e.AddKey? || e.RemoveKeys? || e.Expire? || e.SavePending? {
      KeyWrites(c, e);
    } else {
      match e
      case Open(resume, builder, expired) => OpenWrites(c, resume, builder, expired);
      case Subscribe(_, _) => UnclaimingIs(c);
      case Work(retry, sent, id, due, expired, live) => WorkWrites(c, retry, sent, id, due, expired, live);
      case SwapAnswered(id, live) =>
        if c.swap.Some? {
          ClaimingIs(c.(settled := c.swap.value.generation, swap := None), live);
        }
      case Pong(nonce, live) => ClaimingIs(Fenced(c, nonce), live);
      case SnapshotEnd(s, cursor, live) => SnapshotEndWrites(c, s, cursor, live);
      case LivePatch(cursor) => AppliedOne((c.row, c.store), PutRow(cursor, c.claim));
      case Resync(_, _, _) => UnclaimingIs(c);
      case _ =>
    }
  }

  lemma CommitWrites(c: Client, keys: set<Key>, saved: bool)
    ensures ApplyAll((c.row, c.store), Unclaiming(c) + if saved then [PutStore(keys)] else []) ==
            (Invalidate(c).row, if saved then keys else c.store)
  {
    UnclaimingIs(c);
    AppliedTwo((c.row, c.store), Unclaiming(c), if saved then [PutStore(keys)] else []);
    AppliedOne((Invalidate(c).row, c.store), PutStore(keys));
  }

  lemma OpenWrites(c: Client, resume: Option<Cursor>, builder: set<Key>, expired: set<Key>)
    ensures var next := LoadKeys(Opened(c.row, c.store, resume), builder, expired);
            ApplyAll((c.row, c.store), Writes(c, Open(resume, builder, expired))) == (next.row, next.store)
  {
    CommitWrites(Opened(c.row, c.store, resume), builder + c.store - expired, true);
  }

  lemma WorkWrites(c: Client, retry: bool, sent: bool, id: nat, due: bool, expired: set<Key>, live: set<Key>)
    ensures var next := DoWork(c, retry, sent, id, due, expired, live);
            ApplyAll((c.row, c.store), Writes(c, Work(retry, sent, id, due, expired, live))) == (next.row, next.store)
  {
    var c1 := Send(c, retry, sent, id);
    if due && c1.keys * expired != {} {
      var c2 := ExpireKeys(c1, expired, false);
      UnclaimingIs(c1);
      ClaimingIs(c2, live);
      AppliedTwo((c1.row, c1.store), Unclaiming(c1), Claiming(c2, live));
    } else {
      ClaimingIs(c1, live);
    }
  }

  lemma SnapshotEndWrites(c: Client, s: Sub, cursor: Cursor, live: set<Key>)
    ensures var next := Step(c, SnapshotEnd(s, cursor, live));
            ApplyAll((c.row, c.store), Writes(c, SnapshotEnd(s, cursor, live))) == (next.row, next.store)
  {
    var c1 := if cursor == [] then c else c.(cursor := Some(cursor));
    var c2 := c1.(snapshots := c1.snapshots - {s}, resyncing := c1.resyncing - {s});
    var first := if cursor == [] then [] else [PutRow(cursor, c.claim)];
    AppliedTwo((c.row, c.store), first, Claiming(c2, live));
    AppliedOne((c.row, c.store), PutRow(cursor, c.claim));
    ClaimingIs(if cursor == [] then c2 else c2.(row := Some((cursor, c.claim))), live);
  }

  /** Between two writes of one operation the row is unclaimed, or claims what memory claimed. */
  lemma BetweenWrites(c: Client, e: Event)
    requires Inv(c) && !c.explicit && (e.Open? ==> e.resume.None?) && |Writes(c, e)| == 2
    ensures var d := Apply((c.row, c.store), Writes(c, e)[0]); StoredSound(d.0, d.1)
  {}

  lemma TwoWritesAtMost(c: Client, e: Event)
    ensures |Writes(c, e)| <= 2
  {}

  /** What a crash leaves opens to a sound client, whatever the next builder holds and whatever has expired. */
  lemma ReopenSound(row: Row, store: set<Key>, builder: set<Key>, expired: set<Key>)
    requires StoredSound(row, store)
    ensures Inv(LoadKeys(Opened(row, store, None), builder, expired))
  {}

  /** A process death after any number of an operation's writes reopens to a sound client. */
  lemma CrashSound(c: Client, e: Event, n: nat, builder: set<Key>, expired: set<Key>)
    requires Inv(c) && !c.explicit && (e.Open? ==> e.resume.None?) && n <= |Writes(c, e)|
    ensures var (row, store) := ApplyAll((c.row, c.store), Writes(c, e)[..n]);
            Inv(LoadKeys(Opened(row, store, None), builder, expired))
  {
    var ws := Writes(c, e);
    TwoWritesAtMost(c, e);
    if n == 0 {
      assert ws[..0] == [];
      ReopenSound(c.row, c.store, builder, expired);
    } else if n == |ws| {
      assert ws[..n] == ws;
      DurableIsWrites(c, e);
      StepInv(c, e);
      KeepsImplicit(c, e);
      ReopenSound(Step(c, e).row, Step(c, e).store, builder, expired);
    } else {
      BetweenWrites(c, e);
      assert ws[..1] == [ws[0]];
      AppliedOne((c.row, c.store), ws[0]);
      var (row, store) := Apply((c.row, c.store), ws[0]);
      ReopenSound(row, store, builder, expired);
    }
  }

  // ---- where the claim goes wrong ----

  function Connected(cursor: Cursor, builder: set<Key>): Client {
    Step(Step(Step(Step(NEW, Open(None, builder, {})), Attach), Replayed), LivePatch(cursor))
  }

  /**
   Declare a computed subscription, let its fence go out, declare it again, receive the
   pong: the client claims coverage over a declaration the server has not processed.
   */
  lemma RedeclaredUnderItsFence(s: Sub, cursor: Cursor, nonce: nat)
    ensures var c1 := Step(Connected(cursor, {}), Subscribe(s, true));
            var c2 := Step(c1, Work(false, true, nonce, false, {}, {}));
            var c3 := Step(c2, Subscribe(s, true));
            var c4 := Step(c3, Pong(nonce, {}));
            c4.claim.Some? && !AllProcessed(c4)
  {
    var c1 := Step(Connected(cursor, {}), Subscribe(s, true));
    assert c1.count == 1 && c1.computed == {s} && c1.wire.frames == 1;
    var c2 := Step(c1, Work(false, true, nonce, false, {}, {}));
    assert c2.fence == Some(Fence(nonce, 1, {s})) && c2.wire.pingAt == 1;
    var c3 := Step(c2, Subscribe(s, true));
    assert c3.count == 1 && c3.wire.declared[s] == 2;
    var c4 := Step(c3, Pong(nonce, {}));
    assert c4.claim.Some? && c4.wire.answered == 1;
    assert s in c4.wire.declared && !Processed(c4, s);
  }

  /** A key added, removed or expired that the client did not have so before. */
  predicate ChangesKeys(c: Client, e: Event) {
    || (e.AddKey? && e.key !in c.keys)
    || (e.RemoveKeys? && c.keys * e.dropped != {})
    || (e.Expire? && c.keys * e.expired != {})
  }

  /** The keys stored after such a change. */
  function StoredAfter(c: Client, e: Event): set<Key>
    requires ChangesKeys(c, e)
  {
    match e
    case AddKey(k, saved) => if saved then c.keys + {k} else c.store
    case RemoveKeys(dropped, saved) => if saved then c.keys - dropped else c.store
    case Expire(expired, persist) => if persist then c.keys - expired else c.store
  }

  /** A key change leaves the stored claim sound exactly when that claim is withdrawn with it or names only keys still stored. */
  lemma KeyChangeExactly(c: Client, e: Event)
    requires ChangesKeys(c, e) && c.row.Some? && c.row.value.0 != [] && c.row.value.1.Some?
    ensures StoredSound(Step(c, e).row, Step(c, e).store) <==>
            (c.claim.Some? && c.cursor.Some?) || c.row.value.1.value <= StoredAfter(c, e)
  {}

  /**
   An explicit resume cursor opens unclaimed over a row that still claims. Removing a key
   then withdraws nothing, and the next plain open claims a key the client no longer holds.
   */
  lemma ExplicitResumeLeavesClaim(k: Key, cursor: Cursor, other: Cursor)
    requires cursor != []
    ensures var c1 := Step(Connected(cursor, {k}), Work(false, true, 0, false, {}, {k}));
            var c2 := Step(c1, Open(Some(other), {}, {}));
            var c3 := Step(c2, RemoveKeys({k}, true));
            var c4 := Step(c3, Open(None, {}, {}));
            c1.claim == Some({k}) && c4.claim == Some({k}) && c4.keys == {}
  {
    var c1 := Step(Connected(cursor, {k}), Work(false, true, 0, false, {}, {k}));
    assert {k} * {k} == {k};
    assert c1.claim == Some({k}) && c1.row == Some((cursor, Some({k}))) && c1.store == {k};
    var c2 := Step(c1, Open(Some(other), {}, {}));
    assert {} + {k} - {} == {k};
    assert c2.keys == {k} && c2.row == c1.row;
    var c3 := Step(c2, RemoveKeys({k}, true));
    assert c3.store == {} && c3.row == c1.row;
  }
}
