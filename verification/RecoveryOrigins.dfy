/**
 Where the work in progress comes from: every operation, left-over helper and
 timer goes back to an accepted request, and every edit to a moment at which its
 helper found the host as the change requires.
 */
module RecoveryOrigins {
  import opened Common
  import opened FirewallRules
  import opened FirewallHost
  import opened RecoveryProtocol
  import opened RecoveryInvariant
  import opened RecoverySafety
  import opened RecoveryRestore

  // ----- Accepted requests -----

  // Event k is the accepted request for the operation.
  ghost predicate Begun(s0: State, events: seq<Event>, k: nat, op: Op)
    requires k < |events|
  {
    && events[k].Begin? && events[k].op == op
    && At(s0, events, k).pc.Idle? && Accepts(At(s0, events, k), op, events[k].env)
  }

  ghost predicate BegunBefore(s0: State, events: seq<Event>, j: nat, op: Op)
    requires j <= |events|
  {
    exists k :: 0 <= k < j && Begun(s0, events, k, op)
  }

  lemma BegunLater(s0: State, events: seq<Event>, j: nat, op: Op)
    requires 0 < j <= |events| && BegunBefore(s0, events, j - 1, op)
    ensures BegunBefore(s0, events, j, op)
  {
    var k :| 0 <= k < j - 1 && Begun(s0, events, k, op);
    assert Begun(s0, events, k, op);
  }

  lemma NoOpBegins(s: State, outcome: Outcome, lag: nat)
    requires !HoldsOp(s.pc)
    ensures !HoldsOp(HandlerStep(s, outcome, lag).pc)
  {
  }

  lemma HandlerKeepsOp(s: State, outcome: Outcome, lag: nat)
    requires HoldsOp(HandlerStep(s, outcome, lag).pc)
    ensures HoldsOp(s.pc) && HandlerStep(s, outcome, lag).pc.op == s.pc.op
  {
    if !HoldsOp(s.pc) {
      NoOpBegins(s, outcome, lag);
    } else if s.pc.Applying? {
      assert HandlerStep(s, outcome, lag) == ApplyStep(s, outcome);
    }
  }

  // An operation in progress is the one before, or has just been accepted.
  lemma OpComesFrom(s: State, e: Event)
    requires HoldsOp(Next(s, e).pc)
    ensures (HoldsOp(s.pc) && s.pc.op == Next(s, e).pc.op) ||
            (e.Begin? && s.pc.Idle? && e.op == Next(s, e).pc.op && Accepts(s, e.op, e.env))
  {
    if e.Proceed? {
      HandlerKeepsOp(s, e.outcome, e.lag);
    }
  }

  lemma {:induction false} OperationWasAccepted(s0: State, events: seq<Event>, j: nat)
    requires Initial(s0) && j <= |events| && HoldsOp(At(s0, events, j).pc)
    ensures BegunBefore(s0, events, j, At(s0, events, j).pc.op)
  {
    var s, e := At(s0, events, j - 1), events[j - 1];
    OpComesFrom(s, e);
    if HoldsOp(s.pc) && s.pc.op == Next(s, e).pc.op {
      OperationWasAccepted(s0, events, j - 1);
      BegunLater(s0, events, j, s.pc.op);
    } else {
      assert Begun(s0, events, j - 1, Next(s, e).pc.op);
    }
  }

  // A step adds no timer but the one it arms, and changes no script.
  lemma HandlerScripts(s: State, outcome: Outcome, lag: nat, u: nat)
    requires HeldOk(s) && u in HandlerStep(s, outcome, lag).timers
    ensures (u in s.timers && HandlerStep(s, outcome, lag).timers[u].script == s.timers[u].script) ||
            (s.pc.Arming? && s.pc.op.kind.IsArmed() && HandlerStep(s, outcome, lag).timers[u].script == UndoScript(s.pc.op))
  {
    match s.pc {
      case Applying(_, _, _, _, _) => assert HandlerStep(s, outcome, lag) == ApplyStep(s, outcome);
      case _ =>
    }
  }

  // What a request that may cut a service off has been told about a port.
  predicate SparesServices(op: Op, env: Env) {
    && !Protected(env, op.id.Port()) && !Protected(env, op.dest.Port())
    && match op.kind
       case RemoveDrop | PauseDrop => true
       case PauseAllow => env.listenersKnown && (op.id.Port() in env.listeners ==> env.xrayOwned)
       case _ => !Listening(env, op.id.Port()) && !Listening(env, op.dest.Port())
  }

  lemma ArmedSparesServices(s: State, op: Op, env: Env)
    requires Accepts(s, op, env) && op.kind.IsArmed()
    ensures SparesServices(op, env)
  {
  }

  // Event k is the accepted request behind this script, and it spares services.
  ghost predicate ArmedAt(s0: State, events: seq<Event>, k: nat, script: seq<Cmd>)
    requires k < |events|
  {
    && events[k].Begin? && events[k].op.kind.IsArmed() && Begun(s0, events, k, events[k].op)
    && script == UndoScript(events[k].op) && SparesServices(events[k].op, events[k].env)
  }

  // Every timer of every run was armed for an accepted request that had been
  // told that its ports are unprotected and, where it matters, silent.
  lemma {:induction false} TimerWasAccepted(s0: State, events: seq<Event>, j: nat, u: nat)
    requires Initial(s0) && j <= |events| && u in At(s0, events, j).timers
    ensures exists k :: 0 <= k < j && ArmedAt(s0, events, k, At(s0, events, j).timers[u].script)
  {
    var s := At(s0, events, j - 1);
    InitialHolds(s0);
    RunKeeps(s0, events, j - 1);
    StepScripts(s, events[j - 1], At(s0, events, j), u);
    if u in s.timers {
      TimerWasAccepted(s0, events, j - 1, u);
      var k :| 0 <= k < j - 1 && ArmedAt(s0, events, k, s.timers[u].script);
      assert ArmedAt(s0, events, k, At(s0, events, j).timers[u].script);
    } else {
      ArmingWasAccepted(s0, events, j - 1);
      var k :| 0 <= k < j - 1 && ArmedAt(s0, events, k, UndoScript(s.pc.op));
      assert ArmedAt(s0, events, k, At(s0, events, j).timers[u].script);
    }
  }

  lemma StepScripts(s: State, e: Event, t: State, u: nat)
    requires Inv(s) && t == Next(s, e) && u in t.timers
    ensures if u in s.timers then t.timers[u].script == s.timers[u].script
            else s.pc.Arming? && s.pc.op.kind.IsArmed() && t.timers[u].script == UndoScript(s.pc.op)
  {
    if u in s.timers {
      OnlyConfirmStops(s, e, u);
    } else if e.Proceed? {
      HandlerScripts(s, e.outcome, e.lag, u);
    }
  }

  lemma {:induction false} ArmingWasAccepted(s0: State, events: seq<Event>, j: nat)
    requires Initial(s0) && j <= |events| && At(s0, events, j).pc.Arming? && At(s0, events, j).pc.op.kind.IsArmed()
    ensures exists k :: 0 <= k < j && ArmedAt(s0, events, k, UndoScript(At(s0, events, j).pc.op))
  {
    var op := At(s0, events, j).pc.op;
    OperationWasAccepted(s0, events, j);
    var k :| 0 <= k < j && Begun(s0, events, k, op);
    ArmedSparesServices(At(s0, events, k), op, events[k].env);
    assert ArmedAt(s0, events, k, UndoScript(op));
  }

  // ----- Admitted changes -----

  // A helper past its check, attached or left over, is at work on the change.
  ghost predicate Works(s: State, c: Change) {
    || (s.pc.Applying? && !s.pc.phase.Check? && s.pc.step < |Changes(s.pc.op)| && Changes(s.pc.op)[s.pc.step] == c)
    || (s.pc.Undoing? && !s.pc.phase.Check? && Change(false, s.pc.op.id) == c)
    || LeftWorks(s.left, c)
  }

  predicate LeftWorks(left: seq<Left>, c: Change) {
    exists i :: 0 <= i < |left| && left[i].change == c && left[i].phase.Some? && !left[i].phase.value.Check?
  }

  lemma DetachedWorks(s: State, c: Change)
    requires LeftWorks(Detached(s), c)
    ensures Works(s, c)
  {
    var d := Detached(s);
    var i :| 0 <= i < |d| && d[i].change == c && d[i].phase.Some? && !d[i].phase.value.Check?;
    if i < |s.left| {
      assert s.left[i] == d[i];
    }
  }

  lemma ApplyWorks(s: State, outcome: Outcome, c: Change)
    requires s.pc.Applying? && Works(ApplyStep(s, outcome), c)
    ensures Works(s, c) || Admits(s.host, c)
  {
    var t := ApplyStep(s, outcome);
    if LeftWorks(t.left, c) {
      if t.left != s.left {
        DetachedWorks(s, c);
      }
    }
  }

  lemma UndoWorks(s: State, outcome: Outcome, c: Change)
    requires s.pc.Undoing? && Works(UndoStep(s, outcome), c)
    ensures Works(s, c) || Admits(s.host, c)
  {
  }

  lemma LeftoverWorks(s: State, i: nat, outcome: Outcome, c: Change)
    requires i < |s.left| && Works(LeftStep(s, i, outcome), c)
    ensures Works(s, c) || Admits(s.host, c)
  {
    var t := LeftStep(s, i, outcome);
    if LeftWorks(t.left, c) {
      var k :| 0 <= k < |t.left| && t.left[k].change == c && t.left[k].phase.Some? && !t.left[k].phase.value.Check?;
      if k != i {
        assert s.left[k] == t.left[k];
      } else if !s.left[i].phase.value.Check? {
        assert LeftWorks(s.left, c);
      }
    }
  }

  lemma OthersStartNoHelper(s: State, outcome: Outcome, lag: nat, c: Change)
    requires !s.pc.Applying? && !s.pc.Undoing? && Works(HandlerStep(s, outcome, lag), c)
    ensures Works(s, c)
  {
  }

  lemma StepWorks(s: State, e: Event, c: Change)
    requires Works(Next(s, e), c)
    ensures Works(s, c) || Admits(s.host, c)
  {
    match e {
      case Proceed(outcome, lag) =>
        if s.pc.Applying? {
          ApplyWorks(s, outcome, c);
        } else if s.pc.Undoing? {
          UndoWorks(s, outcome, c);
        } else {
          OthersStartNoHelper(s, outcome, lag, c);
        }
      case Crash => if LeftWorks(Detached(s), c) { DetachedWorks(s, c); }
      case Abandon => if LeftWorks(Detached(s), c) { DetachedWorks(s, c); }
      case Leftover(i, outcome) => if i < |s.left| { LeftoverWorks(s, i, outcome, c); }
      case _ =>
    }
  }

  ghost predicate AdmittedAt(s0: State, events: seq<Event>, k: nat, c: Change)
    requires k <= |events|
  {
    Admits(At(s0, events, k).host, c)
  }

  // Whatever edits a layer for a change, handler or left over, its helper once
  // found the host as that change requires.
  lemma {:induction false} WorkWasAdmitted(s0: State, events: seq<Event>, j: nat, c: Change)
    requires Initial(s0) && j <= |events| && Works(At(s0, events, j), c)
    ensures exists k :: 0 <= k < j && AdmittedAt(s0, events, k, c)
  {
    var s, e := At(s0, events, j - 1), events[j - 1];
    StepWorks(s, e, c);
    if Works(s, c) {
      WorkWasAdmitted(s0, events, j - 1, c);
    } else {
      assert AdmittedAt(s0, events, j - 1, c);
    }
  }

  lemma EditIsWork(s: State, e: Event, u: nat)
    requires Inv(s) && Edits(s, e, u)
    ensures exists c :: Works(s, c) && c in Changes(Worker(s, e).value.0)
  {
    var c := if e.Proceed? then Changes(s.pc.op)[s.pc.step] else s.left[e.index].change;
    assert Works(s, c) && c in Changes(Worker(s, e).value.0);
  }

  lemma AdmittedRemovalIsReady(h: Host, op: Op)
    requires WellFormed(op) && op.kind.RemoveAllow? && Admits(h, Change(false, op.id))
    ensures Ready(h, op)
  {
  }

  // So a plain removal, whose own guards do not look at the rule, edits a layer
  // only if its helper found the rule in both layers.
  lemma {:induction false} RemovalEditsOnlyWhatWasReady(s0: State, events: seq<Event>, j: nat, u: nat, op: Op)
    requires Initial(s0) && j < |events| && Edits(At(s0, events, j), events[j], u)
    requires Worker(At(s0, events, j), events[j]).value.0 == op && op.kind.RemoveAllow?
    ensures exists k :: 0 <= k < j && Ready(At(s0, events, k).host, op)
  {
    var s := At(s0, events, j);
    InitialHolds(s0);
    RunKeeps(s0, events, j);
    EditIsWork(s, events[j], u);
    var c :| Works(s, c) && c in Changes(op);
    assert c == Change(false, op.id);
    WorkWasAdmitted(s0, events, j, c);
    var k :| 0 <= k < j && AdmittedAt(s0, events, k, c);
    AdmittedRemovalIsReady(At(s0, events, k).host, op);
  }
}
