/**
 The re-check gate: whether it is locked, whether it is prompting, and since when the user is
 gone. A moment is read on two clocks, in nanoseconds.
 */
module Gate {
  import opened Common

  datatype Moment = Moment(monotonic: nat, wall: nat) {
    /** How long the absence was, by whichever clock makes it longer. A clock set back counts as no time. */
    function AwayDuration(back: Moment): nat { Max(Monus(back.monotonic, monotonic), Monus(back.wall, wall)) }
  }

  datatype Notice = Locked | Unlocked | UnlockDismissed

  datatype Verdict = Approved | Dismissed

  /** `ask` says whether a prompt's future waits to be taken. */
  datatype State = State(recheck: Option<nat>, armed: bool, locked: bool, prompting: bool, pendingAway: Option<Moment>, ask: bool)

  const UNARMED := State(None, false, false, false, None, false)

  datatype Call =
    | Arm(recheck: Option<nat>, locked: bool)
    | Away(at: Moment)
    | Back(at: Moment)
    | Unlock
    | SetLocked(locked: bool)
    | TakeAsk
    | RestoreAsk
    | Resolve(verdict: Option<Verdict>)

  /** The state after a call, and the notices it sent. */
  type Outcome = (State, seq<Notice>)

  function StartPrompt(s: State): Outcome { (s.(locked := true, prompting := true, ask := true), [Locked]) }

  predicate Overdue(grace: nat, away: Moment, at: Moment) { grace == 0 || away.AwayDuration(at) > grace }

  function HandleBack(s: State, at: Moment): Outcome {
    if !s.armed then (s, [])
    else if s.locked then if s.prompting then (s, []) else StartPrompt(s)
    else if s.pendingAway.None? then (s, [])
    else
      var open := s.(pendingAway := None);
      if s.recheck.Some? && Overdue(s.recheck.value, s.pendingAway.value, at) then StartPrompt(open) else (open, [])
  }

  function Step(s: State, c: Call): Outcome {
    match c
    case Arm(recheck, locked) => (s.(recheck := recheck, armed := true, locked := locked, prompting := false, pendingAway := None), [])
    case Away(at) => (if s.armed && !s.locked && s.recheck.Some? then s.(pendingAway := Some(at)) else s, [])
    case Back(at) => HandleBack(s, at)
    case Unlock => if s.armed && s.locked && !s.prompting then StartPrompt(s) else (s, [])
    case SetLocked(locked) =>
      if s.locked == locked then (s, [])
      else (s.(locked := locked, prompting := false, pendingAway := None), [if locked then Locked else Unlocked])
    case TakeAsk => (s.(ask := false), [])
    case RestoreAsk => (s.(ask := true), [])
    case Resolve(None) => (s, [])
    case Resolve(Some(Approved)) => (s.(prompting := false, locked := false), [Unlocked])
    case Resolve(Some(Dismissed)) => (s.(prompting := false), [UnlockDismissed])
  }

  // ---- every sequence of calls ----

  function Run(calls: seq<Call>): State
    decreases |calls|
  {
    if calls == [] then UNARMED else Step(Run(calls[..|calls| - 1]), calls[|calls| - 1]).0
  }

  /** The lock as the notices since the last arming tell it, `None` while none was sent. */
  function Told(calls: seq<Call>): Option<bool>
    decreases |calls|
  {
    if calls == [] then None
    else
      var init, last := calls[..|calls| - 1], calls[|calls| - 1];
      var notices := Step(Run(init), last).1;
      if last.Arm? then None
      else if Locked in notices then Some(true)
      else if Unlocked in notices then Some(false)
      else Told(init)
  }

  /** The lock the last arming set, open before any. */
  function ArmedAs(calls: seq<Call>): bool
    decreases |calls|
  {
    if calls == [] then false
    else if calls[|calls| - 1].Arm? then calls[|calls| - 1].locked
    else ArmedAs(calls[..|calls| - 1])
  }

  /**
   A prompt in flight means the gate is locked, a locked gate keeps no away moment, and
   the last notice since arming (or the arming itself) says what the gate is.
   */
  lemma {:induction false} GateSafety(calls: seq<Call>)
    ensures var s := Run(calls);
            && (s.prompting ==> s.locked)
            && (s.locked ==> s.pendingAway.None?)
            && s.locked == (if Told(calls).Some? then Told(calls).value else ArmedAs(calls))
    decreases |calls|
  {
    if calls != [] {
      var init, last := calls[..|calls| - 1], calls[|calls| - 1];
      GateSafety(init);
      SafeStep(Run(init), last);
      NoticesTell(Run(init), last);
    }
  }

  lemma SafeStep(s: State, c: Call)
    requires (s.prompting ==> s.locked) && (s.locked ==> s.pendingAway.None?)
    ensures var s' := Step(s, c).0; (s'.prompting ==> s'.locked) && (s'.locked ==> s'.pendingAway.None?)
  {}

  lemma NoticesTell(s: State, c: Call)
    ensures var (s', notices) := Step(s, c);
            s'.locked == if c.Arm? then c.locked else if Locked in notices then true else if Unlocked in notices then false else s.locked
  {}

  /**
   A return locks an open gate that kept an away moment exactly when the grace is zero or
   the time away by either clock exceeds it. Past the grace by the monotonic clock it
   locks however the wall clock was stepped.
   */
  lemma ReturnLocksExactly(calls: seq<Call>, at: Moment)
    requires Run(calls).armed && !Run(calls).locked && Run(calls).recheck.Some? && Run(calls).pendingAway.Some?
    ensures var s := Run(calls);
            var away, grace := s.pendingAway.value, s.recheck.value;
            var s' := Run(calls + [Back(at)]);
            && (s'.locked <==> grace == 0 || at.monotonic > away.monotonic + grace || at.wall > away.wall + grace)
            && (s'.locked <==> s'.prompting) && s'.pendingAway.None?
  {
    assert (calls + [Back(at)])[..|calls|] == calls;
    GateSafety(calls);
  }

  /** The call at `i` is the one whose moment is kept: nothing after it hears, drops or replaces one. */
  ghost predicate KeptAt(calls: seq<Call>, i: nat, at: Moment) {
    i < |calls| && calls[i] == Away(at) && forall k :: i < k < |calls| ==> !calls[k].Away? && !calls[k].Back? && !calls[k].Arm?
  }

  lemma StillKept(calls: seq<Call>, i: nat, at: Moment)
    requires calls != [] && KeptAt(calls[..|calls| - 1], i, at)
    requires var last := calls[|calls| - 1]; !last.Away? && !last.Back? && !last.Arm?
    ensures KeptAt(calls, i, at)
  {}

  lemma MomentStays(s: State, c: Call)
    requires (s.pendingAway.Some? ==> s.armed && !s.locked && s.recheck.Some?) && Step(s, c).0.pendingAway.Some?
    ensures c == Away(Step(s, c).0.pendingAway.value)
            || (s.pendingAway == Step(s, c).0.pendingAway && !c.Away? && !c.Back? && !c.Arm?)
  {}

  /** The moment kept is the last one the open gate heard, until a return, a lock or an arming drops it. */
  lemma {:induction false} KeptMoment(calls: seq<Call>)
    requires Run(calls).pendingAway.Some?
    ensures exists i: nat :: KeptAt(calls, i, Run(calls).pendingAway.value)
    decreases |calls|
  {
    var init, last := calls[..|calls| - 1], calls[|calls| - 1];
    AwayKeepsOpen(init);
    MomentStays(Run(init), last);
    if last.Away? {
      assert KeptAt(calls, |calls| - 1, Run(calls).pendingAway.value);
    } else {
      KeptMoment(init);
      var i: nat :| KeptAt(init, i, Run(init).pendingAway.value);
      StillKept(calls, i, Run(init).pendingAway.value);
    }
  }

  /** An away moment is kept only by an armed, open gate with a grace. */
  lemma {:induction false} AwayKeepsOpen(calls: seq<Call>)
    ensures Run(calls).pendingAway.Some? ==> Run(calls).armed && !Run(calls).locked && Run(calls).recheck.Some?
    decreases |calls|
  {
    if calls != [] {
      AwayKeepsOpen(calls[..|calls| - 1]);
      GateSafety(calls);
    }
  }

  /** Only an overdue return, a forced lock or an arming locks an open gate; only an approval, a forced unlock or an arming opens it. */
  lemma LockChanges(s: State, c: Call)
    requires s.prompting ==> s.locked
    ensures !s.locked && Step(s, c).0.locked ==>
              || c == SetLocked(true)
              || (c.Arm? && c.locked)
              || (c.Back? && s.armed && s.recheck.Some? && s.pendingAway.Some? && Overdue(s.recheck.value, s.pendingAway.value, c.at))
    ensures s.locked && !Step(s, c).0.locked ==> c == SetLocked(false) || (c.Arm? && !c.locked) || c == Resolve(Some(Approved))
    ensures Locked in Step(s, c).1 && !c.SetLocked? ==> s.armed && !s.prompting && Step(s, c).0.prompting && Step(s, c).0.ask
  {}

  // ---- one prompt at a time ----

  /** The prompts started and not yet resolved. */
  function Outstanding(calls: seq<Call>): int
    decreases |calls|
  {
    if calls == [] then 0
    else
      var init, last := calls[..|calls| - 1], calls[|calls| - 1];
      Outstanding(init)
      + (if (last.Back? || last.Unlock?) && Locked in Step(Run(init), last).1 then 1 else 0)
      - (if last.Resolve? && last.verdict.Some? then 1 else 0)
  }

  /** An owner that only resolves a prompt that was started, arms once and forces no lock. */
  ghost predicate Plain(calls: seq<Call>) {
    && (forall i :: 0 < i < |calls| ==> !calls[i].Arm?)
    && (forall i :: 0 <= i < |calls| ==> !calls[i].SetLocked?)
    && (forall i :: 0 <= i < |calls| && calls[i].Resolve? && calls[i].verdict.Some? ==> Outstanding(calls[..i]) > 0)
  }

  lemma PromptStep(s: State, c: Call)
    requires (s.prompting ==> s.locked) && !c.Arm? && !c.SetLocked?
    ensures (c.Back? || c.Unlock?) && Locked in Step(s, c).1 ==> !s.prompting && Step(s, c).0.prompting
    ensures (c.Back? || c.Unlock?) && Locked !in Step(s, c).1 ==> Step(s, c).0.prompting == s.prompting
    ensures c.Resolve? && c.verdict.Some? ==> !Step(s, c).0.prompting
    ensures !c.Back? && !c.Unlock? && !(c.Resolve? && c.verdict.Some?) ==> Step(s, c).0.prompting == s.prompting
  {}

  /** Such an owner never has two prompts in flight. */
  lemma {:induction false} OnePromptAtATime(calls: seq<Call>)
    requires Plain(calls)
    ensures Outstanding(calls) == if Run(calls).prompting then 1 else 0
    decreases |calls|
  {
    if calls != [] {
      var init := calls[..|calls| - 1];
      forall i | 0 <= i < |init| && init[i].Resolve? && init[i].verdict.Some? ensures Outstanding(init[..i]) > 0 {
        assert calls[i] == init[i] && calls[..i] == init[..i];
      }
      OnePromptAtATime(init);
      GateSafety(init);
      var last := calls[|calls| - 1];
      if last.Arm? {
        assert init == [];
      } else {
        PromptStep(Run(init), last);
      }
    }
  }

  // ---- the controller ----

  class GateController {
    var recheck: Option<nat>
    var armed: bool
    var locked: bool
    var prompting: bool
    var pendingAway: Option<Moment>
    var ask: bool
    var notices: seq<Notice>
    ghost var calls: seq<Call>

    ghost function View(): State
      reads this
    {
      State(recheck, armed, locked, prompting, pendingAway, ask)
    }

    /** The gate is where its calls lead, so a prompt means it is locked, and locked it keeps no moment. */
    ghost predicate Valid()
      reads this
    {
      View() == Run(calls) && (prompting ==> locked) && (locked ==> pendingAway.None?)
    }

    /** The calls so far and one more. */
    ghost method Record(c: Call)
      requires View() == Step(Run(calls), c).0
      modifies `calls
      ensures calls == old(calls) + [c] && Valid()
    {
      calls := calls + [c];
      assert calls[..|calls| - 1] == old(calls);
      GateSafety(calls);
    }

    constructor ()
      ensures Valid() && notices == [] && calls == []
    {
      recheck, armed, locked, prompting, pendingAway, ask, notices := None, false, false, false, None, false, [];
      calls := [];
    }

    method BeginPrompt()
      modifies `locked, `prompting, `ask, `notices
      ensures View() == StartPrompt(old(View())).0 && notices == old(notices) + StartPrompt(old(View())).1
    {
      locked, prompting := true, true;
      ask := true;
      notices := notices + [Locked];
    }

    /** Arming: the gate starts closed unless the mechanism is open at that moment. */
    method Enable(grace: Option<nat>, isOpen: bool)
      requires Valid()
      modifies this
      ensures Valid() && calls == old(calls) + [Arm(grace, !isOpen)]
      ensures View() == Step(old(View()), Arm(grace, !isOpen)).0 && notices == old(notices)
    {
      recheck, locked, armed, prompting, pendingAway := grace, !isOpen, true, false, None;
      Record(Arm(grace, !isOpen));
    }

    method WentAway(at: Moment)
      requires Valid()
      modifies this
      ensures Valid() && calls == old(calls) + [Away(at)]
      ensures View() == Step(old(View()), Away(at)).0 && notices == old(notices)
    {
      if !armed || locked {
        Record(Away(at));
        return;
      }
      if recheck.Some? {
        pendingAway := Some(at);
      }
      Record(Away(at));
    }

    method CameBack(at: Moment) returns (prompted: bool)
      requires Valid()
      modifies this
      ensures Valid() && calls == old(calls) + [Back(at)]
      ensures View() == Step(old(View()), Back(at)).0 && notices == old(notices) + Step(old(View()), Back(at)).1
      ensures prompted <==> Step(old(View()), Back(at)).1 != []
    {
      if !armed {
        Record(Back(at));
        return false;
      }
      if locked {
        if prompting {
          Record(Back(at));
          return false;
        }
        BeginPrompt();
        Record(Back(at));
        return true;
      }
      if pendingAway.None? {
        Record(Back(at));
        return false;
      }
      var pending := pendingAway.value;
      pendingAway := None;
      if recheck.None? {
        Record(Back(at));
        return false;
      }
      if recheck.value == 0 || pending.AwayDuration(at) > recheck.value {
        BeginPrompt();
        Record(Back(at));
        return true;
      }
      Record(Back(at));
      return false;
    }

    method AskToUnlock() returns (prompted: bool)
      requires Valid()
      modifies this
      ensures Valid() && calls == old(calls) + [Unlock]
      ensures View() == Step(old(View()), Unlock).0 && notices == old(notices) + Step(old(View()), Unlock).1
      ensures prompted <==> Step(old(View()), Unlock).1 != []
    {
      if armed && locked && !prompting {
        BeginPrompt();
        Record(Unlock);
        return true;
      }
      Record(Unlock);
      return false;
    }

    method ForceLock(lock: bool) returns (changed: bool)
      requires Valid()
      modifies this
      ensures Valid() && calls == old(calls) + [SetLocked(lock)]
      ensures View() == Step(old(View()), SetLocked(lock)).0 && notices == old(notices) + Step(old(View()), SetLocked(lock)).1
      ensures changed <==> old(locked) != lock
    {
      if locked == lock {
        Record(SetLocked(lock));
        return false;
      }
      locked, prompting, pendingAway := lock, false, None;
      notices := notices + [if lock then Locked else Unlocked];
      Record(SetLocked(lock));
      return true;
    }

    method ApplyOutcome(outcome: Option<Verdict>)
      requires Valid()
      modifies this
      ensures Valid() && calls == old(calls) + [Resolve(outcome)]
      ensures View() == Step(old(View()), Resolve(outcome)).0 && notices == old(notices) + Step(old(View()), Resolve(outcome)).1
    {
      if outcome.None? {
        Record(Resolve(outcome));
        return;
      }
      prompting := false;
      if outcome.value.Approved? {
        locked := false;
        notices := notices + [Unlocked];
      } else {
        notices := notices + [UnlockDismissed];
      }
      Record(Resolve(outcome));
    }
  }
}
