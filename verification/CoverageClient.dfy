/** The coverage state as the connection holds it, each method taking the step the protocol model takes. */
module CoverageClient {
  import opened Common
  import opened Coverage

  /** `explicit` and `wire` are what the claims are stated of, and no part of the client. */
  class ShareKeyState {
    var cursor: Option<Cursor>
    var claim: Option<set<Key>>
    var generation: nat
    var settled: nat
    var swap: Option<Swap>
    var fence: Option<Fence>
    var computed: set<Sub>
    var count: nat
    var snapshots: set<Sub>
    var resyncing: set<Sub>
    var online: bool
    var replaying: bool
    var keys: set<Key>
    var row: Row
    var store: set<Key>
    ghost var explicit: bool
    ghost var wire: Wire

    ghost function State(): Client
      reads this
    {
      Client(cursor, claim, generation, settled, swap, fence, computed, count, snapshots, resyncing,
             online, replaying, keys, row, store, explicit, wire)
    }

    /** The claim is sound and the tables say what memory says. */
    ghost predicate Valid()
      reads this
    {
      Inv(State())
    }

    constructor Open(before: Row, held: set<Key>, resume: Option<Cursor>, builder: set<Key>, expired: set<Key>)
      ensures State() == LoadKeys(Opened(before, held, resume), builder, expired)
      ensures StoredSound(before, held) || resume.Some? ==> Valid()
    {
      if resume.Some? {
        cursor, claim := resume, None;
      } else if before.Some? && before.value.0 != [] {
        cursor, claim := Some(before.value.0), before.value.1;
      } else {
        cursor, claim := None, None;
      }
      generation, settled, swap, fence, computed, count := 0, 0, None, None, {}, 0;
      snapshots, resyncing, online, replaying := {}, {}, false, false;
      row, store, explicit, wire := before, held, resume.Some?, FRESH_WIRE;
      keys := builder + held - expired;
      new;
      if keys != store {
        InvalidateCoverage();
        store := keys;
      }
    }

    /** Drops the claim, on disk first where a cursor stands beside it. */
    method InvalidateCoverage()
      modifies this
      ensures State() == Invalidate(old(State()))
    {
      if claim.Some? {
        if cursor.Some? {
          row := Some((cursor.value, None));
        }
        claim := None;
      }
    }

    method PublishCoverage(live: set<Key>)
      modifies this
      ensures State() == Publish(old(State()), live)
    {
      if claim.Some? || swap.Some? || fence.Some? || count != 0 || computed != {}
         || generation != settled || resyncing != {} || snapshots != {}
      {
        return;
      }
      if cursor.None? {
        return;
      }
      row := Some((cursor.value, Some(live * keys)));
      claim := Some(live * keys);
    }

    method CommitShareKeyChange(next: set<Key>, saved: bool)
      modifies this
      ensures State() == CommitKeys(old(State()), next, saved)
      ensures old(Valid()) ==> Valid()
    {
      if Inv(State()) {
        CommitInv(State(), next, saved);
      }
      InvalidateCoverage();
      if saved {
        store := next;
        keys := next;
        generation := generation + 1;
      }
    }

    method ExpireShareKeys(expired: set<Key>, persist: bool)
      modifies this
      ensures State() == ExpireKeys(old(State()), expired, persist)
      ensures old(Valid()) ==> Valid()
    {
      if Inv(State()) {
        ExpireInv(State(), expired, persist);
      }
      if keys * expired == {} {
        return;
      }
      InvalidateCoverage();
      keys := keys - expired;
      generation := generation + 1;
      if persist {
        store := keys;
      }
    }

    method SendSubscribe(sub: Sub, isComputed: bool)
      requires online
      modifies this
      ensures State() == Declare(old(State()), sub, isComputed)
      ensures old(Valid()) ==> Valid()
    {
      if Inv(State()) {
        DeclareInv(State(), sub, isComputed);
      }
      InvalidateCoverage();
      if isComputed {
        if sub !in computed {
          computed := computed + {sub};
          count := count + 1;
        }
        wire := wire.(declared := wire.declared[sub := wire.frames]);
      } else {
        snapshots := snapshots + {sub};
      }
      wire := wire.(frames := wire.frames + 1);
      assert sub in old(computed) ==> old(computed) + {sub} == old(computed);
    }

    /** One round: at most one request goes out, dead keys go, and a claim is made if nothing stands in its way. */
    method StepShareKeys(retry: bool, sent: bool, id: nat, due: bool, expired: set<Key>, live: set<Key>)
      modifies this
      ensures State() == DoWork(old(State()), retry, sent, id, due, expired, live)
      ensures old(Valid()) ==> Valid()
    {
      if Inv(State()) {
        WorkInv(State(), retry, sent, id, due, expired, live);
      }
      if online && !replaying && sent {
        if swap.None? && generation > settled && count == 0 && retry {
          swap := Some(Swap(id, generation));
          wire := wire.(frames := wire.frames + 1);
        } else if fence.None? && claim.None? && count > 0 {
          fence := Some(Fence(id, count, computed));
          wire := wire.(pingAt := wire.frames, frames := wire.frames + 1);
        }
      }
      assert State() == Send(old(State()), retry, sent, id);
      if due {
        ExpireShareKeys(expired, false);
      }
      PublishCoverage(live);
    }

    method SettleReplacement(id: nat, live: set<Key>) returns (ok: bool)
      modifies this
      ensures State() == Answered(old(State()), id, live)
      ensures ok <==> old(swap).Some? && old(swap).value.id == id
      ensures old(Valid()) ==> Valid()
    {
      if Inv(State()) {
        StepInv(State(), SwapAnswered(id, live));
      }
      if swap.None? || swap.value.id != id {
        return false;
      }
      settled, swap := swap.value.generation, None;
      PublishCoverage(live);
      return true;
    }

    method HandlePong(nonce: nat, live: set<Key>)
      modifies this
      ensures State() == Step(old(State()), Pong(nonce, live))
      ensures old(Valid()) ==> Valid()
    {
      if Inv(State()) {
        StepInv(State(), Pong(nonce, live));
      }
      if fence.Some? && fence.value.nonce == nonce {
        var taken := fence.value;
        fence, count, computed := None, Monus(count, taken.count), computed - taken.subs;
        wire := wire.(answered := Max(wire.answered, wire.pingAt));
        assert State() == Fenced(old(State()), nonce);
        PublishCoverage(live);
      }
    }

    method RefuseDeclaration(sub: Sub)
      modifies this
      ensures State() == Step(old(State()), DeclarationRefused(sub))
      ensures old(Valid()) ==> Valid()
    {
      if Inv(State()) {
        QuietInv(State(), DeclarationRefused(sub));
      }
      if fence.Some? {
        fence := Some(fence.value.(subs := fence.value.subs - {sub}));
      }
    }

    method HandleSnapshotEnd(sub: Sub, at: Cursor, live: set<Key>)
      modifies this
      ensures State() == Step(old(State()), SnapshotEnd(sub, at, live))
      ensures old(Valid()) ==> Valid()
    {
      if Inv(State()) {
        SnapshotEndInv(State(), sub, at, live);
      }
      if at != [] {
        row := Some((at, claim));
        cursor := Some(at);
      }
      snapshots := snapshots - {sub};
      resyncing := resyncing - {sub};
      PublishCoverage(live);
    }

    method Forget(sub: Sub)
      modifies this
      ensures State() == Step(old(State()), Unsubscribe(sub))
      ensures old(Valid()) ==> Valid()
    {
      if Inv(State()) {
        QuietInv(State(), Unsubscribe(sub));
      }
      snapshots := snapshots - {sub};
      resyncing := resyncing - {sub};
      computed := computed - {sub};
      wire := wire.(declared := wire.declared - {sub});
    }

    /** Nothing sent on a lost wire is owed an answer. */
    method ForgetSent()
      modifies `swap, `fence, `computed, `count
      ensures swap == None && fence == None && computed == {} && count == 0
    {
      swap, fence, computed, count := None, None, {}, 0;
    }

    method Disconnected()
      modifies this
      ensures State() == Dropped(old(State()))
      ensures old(Valid()) ==> Valid()
    {
      if Inv(State()) {
        QuietInv(State(), Disconnect);
      }
      ForgetSent();
      snapshots, online, replaying, wire := {}, false, false, FRESH_WIRE;
    }
  }
}
