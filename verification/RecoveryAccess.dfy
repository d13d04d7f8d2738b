/**
 The panel never closes a protected port.

 Every request that could close a port refuses the SSH port, the panel's own
 port and the ports it is told are critical.  Over whole runs this means that
 neither a handler nor a timer it armed ever touches them, and that an open port
 of that kind stays open -- exactly when no helper that could still close it is
 at work.
 */
module RecoveryAccess {
  import opened Common
  import opened FirewallRules
  import opened FirewallHost
  import opened RecoveryProtocol
  import opened RecoveryInvariant
  import opened RecoveryOrigins

  const SSH := 22

  // Every request of the run is told that the port is protected.
  predicate AlwaysProtected(events: seq<Event>, port: nat) {
    forall k :: 0 <= k < |events| && events[k].Begin? ==> Protected(events[k].env, port)
  }

  lemma SshAlwaysProtected(events: seq<Event>)
    ensures AlwaysProtected(events, SSH)
  {
  }

  // ----- Nothing in progress concerns the port -----

  predicate Concerns(op: Op, port: nat) {
    op.id.Port() == port || op.dest.Port() == port
  }

  predicate ScriptSpares(script: seq<Cmd>, port: nat) {
    forall i :: 0 <= i < |script| ==> script[i].rule.Port() != port
  }

  ghost predicate Spared(s: State, port: nat) {
    && (forall u :: u in s.timers ==> ScriptSpares(s.timers[u].script, port))
    && (HoldsOp(s.pc) && !s.pc.op.kind.AddAllow? ==> !Concerns(s.pc.op, port))
    && (forall i :: 0 <= i < |s.left| && !s.left[i].op.kind.AddAllow? ==> !Concerns(s.left[i].op, port))
  }

  lemma AcceptedSpares(s: State, op: Op, env: Env, port: nat)
    requires Accepts(s, op, env) && Protected(env, port) && !op.kind.AddAllow?
    ensures !Concerns(op, port)
  {
  }

  lemma UndoSpares(op: Op, port: nat)
    requires !Concerns(op, port)
    ensures ScriptSpares(UndoScript(op), port)
  {
  }

  lemma FireSpares(s: State, u: nat, outcome: Outcome, port: nat)
    requires Spared(s, port) && u in s.timers
    ensures Spared(FireStep(s, u, outcome), port)
  {
  }

  lemma LeavingSpares(s: State, port: nat)
    requires Spared(s, port)
    ensures Spared(LeaveHelper(s), port)
  {
  }

  lemma HandlerLeavesOwn(s: State, outcome: Outcome, lag: nat)
    ensures HandlerStep(s, outcome, lag).left == s.left || HandlerStep(s, outcome, lag).left == Detached(s)
  {
  }

  lemma HandlerSpares(s: State, outcome: Outcome, lag: nat, port: nat)
    requires HeldOk(s) && Spared(s, port)
    ensures Spared(HandlerStep(s, outcome, lag), port)
  {
    var t := HandlerStep(s, outcome, lag);
    forall u | u in t.timers ensures ScriptSpares(t.timers[u].script, port) {
      HandlerScripts(s, outcome, lag, u);
      if s.pc.Arming? && s.pc.op.kind.IsArmed() {
        UndoSpares(s.pc.op, port);
      }
    }
    if HoldsOp(t.pc) {
      HandlerKeepsOp(s, outcome, lag);
    }
    HandlerLeavesOwn(s, outcome, lag);
    LeavingSpares(s, port);
  }

  lemma StepSpares(s: State, e: Event, port: nat)
    requires Inv(s) && Spared(s, port) && (e.Begin? ==> Protected(e.env, port))
    ensures Spared(Next(s, e), port)
  {
    match e {
      case Fire(u, outcome) => if u in s.timers { FireSpares(s, u, outcome, port); }
      case Begin(op, env) =>
        if s.pc.Idle? && Accepts(s, op, env) && !op.kind.AddAllow? {
          AcceptedSpares(s, op, env, port);
        }
      case Proceed(outcome, lag) => HandlerSpares(s, outcome, lag, port);
      case Crash => LeavingSpares(s, port);
      case Abandon => LeavingSpares(s, port);
      case _ =>
    }
  }

  lemma StepSparesTo(s: State, e: Event, t: State, port: nat)
    requires Inv(s) && Spared(s, port) && (e.Begin? ==> Protected(e.env, port)) && t == Next(s, e)
    ensures Spared(t, port)
  {
    StepSpares(s, e, port);
  }

  lemma {:induction false} RunSpares(s0: State, events: seq<Event>, i: nat, port: nat)
    requires Initial(s0) && i <= |events| && AlwaysProtected(events, port)
    ensures Spared(At(s0, events, i), port)
  {
    if i > 0 {
      var s, e := At(s0, events, i - 1), events[i - 1];
      RunSpares(s0, events, i - 1, port);
      assert Spared(s, port);
      InitialHolds(s0);
      RunKeeps(s0, events, i - 1);
      assert Inv(s);
      StepSparesTo(s, e, Next(s, e), port);
    }
  }

  // ----- Helpers that could still close the port -----

  // A helper that removes n may close its port until it compensates; one that
  // adds n may close it by compensating, once it is past its check.
  predicate CouldClose(c: Change, phase: Phase, n: Native) {
    c.rule == n && if c.add then !phase.Check? else !phase.Compensate?
  }

  predicate LeftCouldClose(left: seq<Left>, n: Native) {
    exists i :: 0 <= i < |left| && left[i].phase.Some? && CouldClose(left[i].change, left[i].phase.value, n)
  }

  // A handler that is settling an addition may still have to take it back.
  predicate HandlerCouldClose(pc: Pc, n: Native) {
    match pc
    case Applying(op, _, _, step, phase) => step < |Changes(op)| && CouldClose(Changes(op)[step], phase, n)
    case Settling(op) => op.id == n
    case Undoing(op, phase) => CouldClose(Change(false, op.id), phase, n)
    case _ => false
  }

  // The rule is in force and no helper could still close it.
  ghost predicate Open(s: State, n: Native) {
    s.host.Everywhere(n) && !HandlerCouldClose(s.pc, n) && !LeftCouldClose(s.left, n)
  }

  predicate Guarded(n: Native) {
    n.OpenPort? && n.port > 0
  }

  // The helper refuses to add what is there.
  lemma PresentIsRefused(h: Host, n: Native)
    requires Guarded(n) && h.Everywhere(n)
    ensures !Admits(h, Change(true, n))
  {
    assert n.zone in h.zones ==> n in h.GoverningIn(n.zone, n.port, n.protocol);
  }

  lemma FireKeepsOpen(s: State, u: nat, outcome: Outcome, n: Native)
    requires Spared(s, n.Port()) && Open(s, n) && u in s.timers
    ensures Open(FireStep(s, u, outcome), n)
  {
  }

  lemma LeavingKeepsOpen(s: State, n: Native)
    requires Open(s, n)
    ensures Open(LeaveHelper(s), n)
  {
    var d := Detached(s);
    forall i | 0 <= i < |d| && d[i].phase.Some? ensures !CouldClose(d[i].change, d[i].phase.value, n) {
      if i < |s.left| {
        assert d[i] == s.left[i];
      }
    }
  }

  // One step of a helper that is harmless to n leaves n in force and stays harmless.
  lemma HelperKeepsOpen(h: Host, c: Change, phase: Phase, outcome: Outcome, n: Native)
    requires Guarded(n) && h.Everywhere(n) && !CouldClose(c, phase, n)
    ensures var (after, helper) := HelperStep(h, c, phase, outcome);
            && after.Everywhere(n)
            && (helper.Continue? ==> !CouldClose(c, helper.phase, n))
            && (c.rule == n ==> helper.GaveUp?)
  {
    if c.rule == n {
      PresentIsRefused(h, n);
    }
  }

  lemma LeftoverKeepsOpen(s: State, i: nat, outcome: Outcome, n: Native)
    requires Open(s, n) && Guarded(n) && i < |s.left|
    ensures Open(LeftStep(s, i, outcome), n)
  {
    if s.left[i].phase.Some? {
      HelperKeepsOpen(s.host, s.left[i].change, s.left[i].phase.value, outcome, n);
      var t := LeftStep(s, i, outcome);
      forall k | 0 <= k < |t.left| && t.left[k].phase.Some? ensures !CouldClose(t.left[k].change, t.left[k].phase.value, n) {
        if k != i {
          assert t.left[k] == s.left[k];
        }
      }
    }
  }

  lemma ApplyKeepsOpen(s: State, outcome: Outcome, n: Native)
    requires HeldOk(s) && Spared(s, n.Port()) && Open(s, n) && Guarded(n) && s.pc.Applying?
    ensures Open(ApplyStep(s, outcome), n)
  {
    var op := s.pc.op;
    if Expired(s, s.pc.started) || s.pc.step >= |Changes(op)| {
      LeavingKeepsOpen(s, n);
    } else {
      HelperKeepsOpen(s.host, Changes(op)[s.pc.step], s.pc.phase, outcome, n);
      NextChangeIsHarmless(op, s.pc.step + 1, n);
    }
  }

  // The next change of an operation is not a removal of n.
  lemma NextChangeIsHarmless(op: Op, step: nat, n: Native)
    requires WellFormed(op) && Guarded(n) && (op.kind.AddAllow? || !Concerns(op, n.Port()))
    ensures step < |Changes(op)| ==> !CouldClose(Changes(op)[step], Check, n)
  {
  }

  lemma UndoKeepsOpen(s: State, outcome: Outcome, n: Native)
    requires Open(s, n) && Guarded(n) && s.pc.Undoing?
    ensures Open(UndoStep(s, outcome), n)
  {
    HelperKeepsOpen(s.host, Change(false, s.pc.op.id), s.pc.phase, outcome, n);
  }

  lemma RestKeepsOpen(s: State, outcome: Outcome, lag: nat, n: Native)
    requires Open(s, n) && !s.pc.Applying? && !s.pc.Undoing? && !s.pc.Arming?
    ensures Open(HandlerStep(s, outcome, lag), n)
  {
  }

  lemma ArmKeepsOpen(s: State, outcome: Outcome, lag: nat, n: Native)
    requires HeldOk(s) && Spared(s, n.Port()) && Open(s, n) && Guarded(n) && s.pc.Arming?
    ensures Open(ArmStep(s, outcome, lag), n)
  {
    NextChangeIsHarmless(s.pc.op, 0, n);
  }

  lemma HandlerKeepsOpen(s: State, outcome: Outcome, lag: nat, n: Native)
    requires HeldOk(s) && Spared(s, n.Port()) && Open(s, n) && Guarded(n)
    ensures Open(HandlerStep(s, outcome, lag), n)
  {
    match s.pc {
      case Arming(_, _) => ArmKeepsOpen(s, outcome, lag, n);
      case Applying(_, _, _, _, _) => ApplyKeepsOpen(s, outcome, n);
      case Undoing(_, _) => UndoKeepsOpen(s, outcome, n);
      case _ => RestKeepsOpen(s, outcome, lag, n);
    }
  }

  lemma BeginKeepsOpen(s: State, op: Op, env: Env, n: Native)
    requires Open(s, n) && Guarded(n) && Protected(env, n.port) && Accepts(s, op, env)
    ensures Open(Dispatch(s, op), n)
  {
    if !op.kind.AddAllow? {
      AcceptedSpares(s, op, env, n.port);
    }
    NextChangeIsHarmless(op, 0, n);
  }

  // An event a run may contain: other managers leave n in both layers, requests
  // are told that its port is protected.
  predicate Allowed(e: Event, n: Native)
    requires Guarded(n)
  {
    (e.External? ==> e.host.Everywhere(n)) && (e.Begin? ==> Protected(e.env, n.port))
  }

  lemma StepKeepsOpen(s: State, e: Event, n: Native)
    requires Inv(s) && Guarded(n) && Spared(s, n.Port()) && Open(s, n) && Allowed(e, n)
    ensures Open(Next(s, e), n)
  {
    match e {
      case Fire(u, outcome) => if u in s.timers { FireKeepsOpen(s, u, outcome, n); }
      case Proceed(outcome, lag) => HandlerKeepsOpen(s, outcome, lag, n);
      case Crash => LeavingKeepsOpen(s, n);
      case Abandon => LeavingKeepsOpen(s, n);
      case Leftover(i, outcome) => if i < |s.left| { LeftoverKeepsOpen(s, i, outcome, n); }
      case Begin(op, env) => if s.pc.Idle? && Accepts(s, op, env) { BeginKeepsOpen(s, op, env, n); }
      case _ =>
    }
  }

  predicate AllAllowed(events: seq<Event>, n: Native)
    requires Guarded(n)
  {
    forall k :: 0 <= k < |events| ==> Allowed(events[k], n)
  }

  // The state after all events.
  ghost function End(s: State, events: seq<Event>): State {
    At(s, events, |events|)
  }

  lemma {:induction false} OpenStays(s: State, events: seq<Event>, i: nat, n: Native)
    requires Inv(s) && Guarded(n) && Spared(s, n.Port()) && Open(s, n) && AllAllowed(events, n) && i <= |events|
    ensures Open(At(s, events, i), n) && Spared(At(s, events, i), n.Port())
  {
    if i > 0 {
      OpenStays(s, events, i - 1, n);
      RunKeeps(s, events, i - 1);
      StepKeepsOpen(At(s, events, i - 1), events[i - 1], n);
      StepSpares(At(s, events, i - 1), events[i - 1], n.Port());
    }
  }

  // ----- Exactly when the port stays open -----

  // In no continuation does n leave a layer.
  ghost predicate StaysOpen(s: State, n: Native)
    requires Guarded(n)
  {
    forall more: seq<Event> :: AllAllowed(more, n) ==> End(s, more).host.Everywhere(n)
  }

  lemma EndOfOne(s: State, e: Event, more: seq<Event>)
    ensures End(s, [e] + more) == End(Next(s, e), more)
  {
    ShiftAt(s, e, more, |more|);
  }

  lemma {:induction false} ShiftAt(s: State, e: Event, more: seq<Event>, i: nat)
    requires i <= |more|
    ensures At(s, [e] + more, i + 1) == At(Next(s, e), more, i)
  {
    if i > 0 {
      ShiftAt(s, e, more, i - 1);
      assert ([e] + more)[i] == more[i - 1];
    } else {
      assert At(s, [e] + more, 0) == s;
    }
  }

  // One allowed step keeps it, so a step that breaks it shows it was broken.
  lemma StaysOpenSteps(s: State, e: Event, n: Native)
    requires Guarded(n) && StaysOpen(s, n) && Allowed(e, n)
    ensures StaysOpen(Next(s, e), n)
  {
    forall more: seq<Event> | AllAllowed(more, n) ensures End(Next(s, e), more).host.Everywhere(n) {
      EndOfOne(s, e, more);
      assert AllAllowed([e] + more, n);
    }
  }

  lemma StaysOpenNow(s: State, n: Native)
    requires Guarded(n) && StaysOpen(s, n)
    ensures s.host.Everywhere(n)
  {
    assert AllAllowed([], n);
    assert End(s, []).host.Everywhere(n);
  }

  // A left-over helper of an addition that is past its check can take the rule
  // away by compensating.
  lemma CompensationCloses(s: State, i: nat, n: Native)
    requires Guarded(n) && i < |s.left| && s.left[i].change == Change(true, n)
    requires s.left[i].phase.Some? && !s.left[i].phase.value.Check?
    ensures !StaysOpen(s, n)
    decreases if s.left[i].phase.value.RuntimeStep? then 2 else if s.left[i].phase.value.PermanentStep? then 1 else 0
  {
    var e := Leftover(i, if s.left[i].phase.value.PermanentStep? then FailedClean else Done);
    var t := Next(s, e);
    if s.left[i].phase.value.Compensate? {
      if StaysOpen(s, n) {
        StaysOpenSteps(s, e, n);
        StaysOpenNow(t, n);
      }
    } else {
      CompensationCloses(t, i, n);
      if StaysOpen(s, n) {
        StaysOpenSteps(s, e, n);
      }
    }
  }

  // A left-over helper of a removal can take it away once its check passes,
  // and another manager may see to that.
  lemma RemovalCloses(s: State, i: nat, n: Native)
    requires Guarded(n) && i < |s.left| && s.left[i].change == Change(false, n)
    requires s.left[i].phase.Some? && !s.left[i].phase.value.Compensate?
    ensures !StaysOpen(s, n)
  {
    if s.left[i].phase.value.Check? {
      CheckedRemovalCloses(s, i, n);
    } else {
      FinalEditCloses(s, i, n);
    }
  }

  lemma FinalEditCloses(s: State, i: nat, n: Native)
    requires Guarded(n) && i < |s.left| && s.left[i].change == Change(false, n)
    requires s.left[i].phase == Some(RuntimeStep) || s.left[i].phase == Some(PermanentStep)
    ensures !StaysOpen(s, n)
  {
    var e := Leftover(i, Done);
    if StaysOpen(s, n) {
      StaysOpenSteps(s, e, n);
      StaysOpenNow(Next(s, e), n);
    }
  }

  lemma CheckedRemovalCloses(s: State, i: nat, n: Native)
    requires Guarded(n) && i < |s.left| && s.left[i].change == Change(false, n) && s.left[i].phase == Some(Check)
    ensures !StaysOpen(s, n)
  {
    var alone := Host({n}, {n}, {n.zone}, {});
    assert n in alone.Visible();
    assert alone.GoverningIn(n.zone, n.port, n.protocol) == {n};
    var s1 := Next(s, External(alone));
    var s2 := Next(s1, Leftover(i, Done));
    assert s2.left[i].phase == Some(RuntimeStep);
    FinalEditCloses(s2, i, n);
    if StaysOpen(s, n) {
      StaysOpenSteps(s, External(alone), n);
      StaysOpenSteps(s1, Leftover(i, Done), n);
    }
  }

  lemma LeftCloses(s: State, n: Native)
    requires Guarded(n) && LeftCouldClose(s.left, n)
    ensures !StaysOpen(s, n)
  {
    var i :| 0 <= i < |s.left| && s.left[i].phase.Some? && CouldClose(s.left[i].change, s.left[i].phase.value, n);
    if s.left[i].change.add {
      CompensationCloses(s, i, n);
    } else {
      RemovalCloses(s, i, n);
    }
  }

  // The handler's own helper goes on when the panel crashes.
  lemma AttachedCloses(s: State, n: Native)
    requires Guarded(n) && (s.pc.Applying? || s.pc.Undoing?) && HandlerCouldClose(s.pc, n)
    ensures !StaysOpen(s, n)
  {
    var d := Detached(s);
    assert d[|d| - 1].phase.Some? && CouldClose(d[|d| - 1].change, d[|d| - 1].phase.value, n);
    LeftCloses(Next(s, Crash), n);
    if StaysOpen(s, n) {
      StaysOpenSteps(s, Crash, n);
    }
  }

  lemma HandlerCloses(s: State, n: Native)
    requires Guarded(n) && HandlerCouldClose(s.pc, n)
    ensures !StaysOpen(s, n)
  {
    if s.pc.Settling? {
      var e := Proceed(FailedClean, 0);
      AttachedCloses(Next(s, e), n);
      if StaysOpen(s, n) {
        StaysOpenSteps(s, e, n);
      }
    } else {
      AttachedCloses(s, n);
    }
  }

  // Whatever is requested, fails, fires, crashes or is left over, and however
  // other managers edit other rules: an allowance of a protected port stays in
  // force in every continuation if and only if it is in force and no helper that
  // could still close it is at work.
  lemma StaysOpenIffOpen(s: State, n: Native)
    requires Inv(s) && Guarded(n) && Spared(s, n.Port())
    ensures StaysOpen(s, n) <==> Open(s, n)
  {
    if Open(s, n) {
      forall more: seq<Event> | AllAllowed(more, n) ensures End(s, more).host.Everywhere(n) {
        OpenStays(s, more, |more|, n);
      }
    } else if HandlerCouldClose(s.pc, n) {
      HandlerCloses(s, n);
    } else if LeftCouldClose(s.left, n) {
      LeftCloses(s, n);
    } else if StaysOpen(s, n) {
      StaysOpenNow(s, n);
    }
  }

  // In particular, over every run in which other managers leave it alone, an
  // open SSH port that no helper is working on stays open.
  lemma {:induction false} SshStaysOpen(s0: State, events: seq<Event>, i: nat, j: nat, zone: string, protocol: Protocol)
    requires Initial(s0) && i <= j <= |events|
    requires Open(At(s0, events, i), OpenPort(zone, SSH, protocol))
    requires forall k :: i <= k < j && events[k].External? ==> events[k].host.Everywhere(OpenPort(zone, SSH, protocol))
    ensures Open(At(s0, events, j), OpenPort(zone, SSH, protocol))
  {
    var n := OpenPort(zone, SSH, protocol);
    if i < j {
      SshStaysOpen(s0, events, i, j - 1, zone, protocol);
      SshAlwaysProtected(events);
      InitialHolds(s0);
      RunKeeps(s0, events, j - 1);
      RunSpares(s0, events, j - 1, SSH);
      StepKeepsOpen(At(s0, events, j - 1), events[j - 1], n);
    }
  }
}
