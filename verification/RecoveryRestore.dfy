/**
 Running the undo script after any partial execution of a change gives back
 the rules as they were, exactly when the rules were in the state the change
 assumes.
 */
module RecoveryRestore {
  import opened Common
  import opened FirewallRules
  import opened FirewallHost
  import opened RecoveryProtocol
  import opened RecoveryInvariant
  import opened RecoverySafety

  // The rules are where an armed operation expects them.
  predicate Ready(h: Host, op: Op) {
    match op.kind
    case RemoveAllow | PauseAllow | RemoveDrop | PauseDrop => h.Everywhere(op.id)
    case AddDrop => h.Nowhere(op.id)
    case EditExternal => h.Everywhere(op.id) && h.Nowhere(op.dest)
    case _ => true
  }

  // ----- The guards establish readiness -----

  lemma VisibleGoverns(h: Host, n: Native)
    requires (n.OpenPort? || n.RichPort?) && n.zone in h.zones
    ensures n in h.Governing(n.port, n.protocol) <==> !h.Nowhere(n)
  {
  }

  // Every guard but that of a plain removal looks at both layers.
  lemma GuardsReady(s: State, op: Op, env: Env)
    requires Accepts(s, op, env) && op.kind.IsArmed() && !op.kind.RemoveAllow?
    ensures Ready(s.host, op)
  {
    match op.kind {
      case AddDrop => VisibleGoverns(s.host, op.id);
      case EditExternal =>
        assert op.dest.ContainsPort(op.dest.port);
        assert op.dest in s.host.Visible() <==> !s.host.Nowhere(op.dest);
      case _ =>
    }
  }

  // ----- One undo script -----

  ghost function RunScript(h: Host, script: seq<Cmd>): Host
    decreases |script|
  {
    if script == [] then h else RunScript(Run(h, script[0]), script[1..])
  }

  ghost predicate AgreeOutside(a: Host, b: Host, op: Op) {
    && a.zones == b.zones && a.opaqueZones == b.opaqueZones
    && forall n :: n != op.id && n != op.dest ==>
         (n in a.runtime <==> n in b.runtime) && (n in a.permanent <==> n in b.permanent)
  }

  // Both layers hold the rules of the operation alike.
  predicate SameAt(a: Host, b: Host, op: Op) {
    && (op.id in a.runtime <==> op.id in b.runtime) && (op.id in a.permanent <==> op.id in b.permanent)
    && (op.dest in a.runtime <==> op.dest in b.runtime) && (op.dest in a.permanent <==> op.dest in b.permanent)
  }

  lemma SameInsideAndOutside(a: Host, b: Host, op: Op)
    ensures a == b <==> SameAt(a, b, op) && AgreeOutside(a, b, op)
  {
    if SameAt(a, b, op) && AgreeOutside(a, b, op) {
      assert a.runtime == b.runtime && a.permanent == b.permanent;
    }
  }

  predicate Holds(h: Host, c: Cmd) {
    c.rule in h.Layer(c.layer) <==> c.present
  }

  // The first k commands are in effect.
  predicate Effective(h: Host, script: seq<Cmd>, k: nat)
    requires k <= |script|
  {
    forall i :: 0 <= i < k ==> Holds(h, script[i])
  }

  // No two commands of an undo script contradict each other.
  lemma ScriptConsistent(op: Op, i: nat, j: nat)
    requires WellFormed(op) && i < |UndoScript(op)| && j < |UndoScript(op)|
    requires UndoScript(op)[i].layer == UndoScript(op)[j].layer && UndoScript(op)[i].rule == UndoScript(op)[j].rule
    ensures UndoScript(op)[i].present == UndoScript(op)[j].present
  {
  }

  lemma CommandExtends(h: Host, op: Op, k: nat)
    requires WellFormed(op) && k < |UndoScript(op)| && Effective(h, UndoScript(op), k)
    ensures Effective(Run(h, UndoScript(op)[k]), UndoScript(op), k + 1)
  {
    var c := UndoScript(op)[k];
    forall i | 0 <= i < k + 1 ensures Holds(Run(h, c), UndoScript(op)[i]) {
      var d := UndoScript(op)[i];
      if d.layer == c.layer && d.rule == c.rule {
        ScriptConsistent(op, i, k);
      }
    }
  }

  lemma CommandStaysInside(h0: Host, h: Host, op: Op, k: nat)
    requires WellFormed(op) && k < |UndoScript(op)| && AgreeOutside(h0, h, op)
    ensures AgreeOutside(h0, Run(h, UndoScript(op)[k]), op)
  {
    assert UndoScript(op)[k].rule == op.id || UndoScript(op)[k].rule == op.dest;
  }

  // With the whole script in effect the rules are as they were exactly when
  // they were ready.
  lemma EffectiveRestores(h0: Host, h: Host, op: Op)
    requires WellFormed(op) && op.kind.IsArmed() && Effective(h, UndoScript(op), |UndoScript(op)|)
    ensures SameAt(h, h0, op) <==> Ready(h0, op)
  {
    var script := UndoScript(op);
    assert Holds(h, script[0]) && Holds(h, script[1]);
    if op.kind.EditExternal? {
      assert Holds(h, script[2]) && Holds(h, script[3]);
    }
  }

  lemma {:induction false} ScriptTakesEffect(h0: Host, h: Host, op: Op, k: nat)
    requires WellFormed(op) && k <= |UndoScript(op)|
    requires AgreeOutside(h0, h, op) && Effective(h, UndoScript(op), k)
    ensures var r := RunScript(h, UndoScript(op)[k..]);
            AgreeOutside(h0, r, op) && Effective(r, UndoScript(op), |UndoScript(op)|)
    decreases |UndoScript(op)| - k
  {
    var script := UndoScript(op);
    if k < |script| {
      CommandExtends(h, op, k);
      CommandStaysInside(h0, h, op, k);
      assert script[k..][1..] == script[k + 1..];
      ScriptTakesEffect(h0, Run(h, script[k]), op, k + 1);
    }
  }

  // Whatever the change left behind on its own rules, the script restores the
  // original host if and only if the change started from a ready one.
  lemma UndoRestoresIffReady(before: Host, after: Host, op: Op)
    requires WellFormed(op) && op.kind.IsArmed() && AgreeOutside(before, after, op)
    ensures RunScript(after, UndoScript(op)) == before <==> Ready(before, op)
  {
    ScriptTakesEffect(before, after, op, 0);
    assert UndoScript(op)[0..] == UndoScript(op);
    EffectiveRestores(before, RunScript(after, UndoScript(op)), op);
    SameInsideAndOutside(RunScript(after, UndoScript(op)), before, op);
  }

  // ----- The same over runs, with the timer running in steps -----

  // The step belongs to the timer u, to the handler that armed it, or to a
  // helper that handler left over, while the timer has not begun.
  ghost predicate OwnStep(s: State, e: Event, u: nat) {
    || (e.Fire? && e.unit == u)
    || (e.Proceed? && HeldUnit(s.pc) == Some(u))
    || (e.Leftover? && e.index < |s.left| && s.left[e.index].timer == Some(u) &&
        u in s.timers && s.timers[u].status.Waiting?)
  }

  // Nobody else touches the rules of the operation; other rules are free.
  ghost predicate Undisturbed(s0: State, events: seq<Event>, i: nat, j: nat, u: nat, op: Op)
    requires i <= j <= |events|
  {
    i == j ||
    (Undisturbed(s0, events, i, j - 1, u, op) &&
     (SameAt(Next(At(s0, events, j - 1), events[j - 1]).host, At(s0, events, j - 1).host, op) ||
      OwnStep(At(s0, events, j - 1), events[j - 1], u)))
  }

  lemma {:induction false} UndisturbedSplits(s0: State, events: seq<Event>, b: nat, i: nat, j: nat, u: nat, op: Op)
    requires b <= i <= j <= |events| && Undisturbed(s0, events, b, j, u, op)
    ensures Undisturbed(s0, events, b, i, u, op) && Undisturbed(s0, events, i, j, u, op)
  {
    if i < j {
      UndisturbedSplits(s0, events, b, i, j - 1, u, op);
    }
  }

  // As much of the script as has run is in effect.
  ghost predicate Restoring(s: State, u: nat, op: Op) {
    && u in s.timers && s.timers[u].script == UndoScript(op)
    && (match s.timers[u].status
        case Running(k) => k < |UndoScript(op)| && Effective(s.host, UndoScript(op), k)
        case Finished => Effective(s.host, UndoScript(op), |UndoScript(op)|)
        case _ => true)
  }

  lemma ScriptRules(op: Op, i: nat)
    requires WellFormed(op) && i < |UndoScript(op)|
    ensures UndoScript(op)[i].rule == op.id || UndoScript(op)[i].rule == op.dest
  {
  }

  lemma SameKeepsEffect(a: Host, b: Host, op: Op, k: nat)
    requires WellFormed(op) && SameAt(a, b, op) && k <= |UndoScript(op)| && Effective(b, UndoScript(op), k)
    ensures Effective(a, UndoScript(op), k)
  {
    forall i: nat | i < k ensures Holds(a, UndoScript(op)[i]) {
      ScriptRules(op, i);
      assert Holds(b, UndoScript(op)[i]);
    }
  }

  // The timer has not moved, or has only been stopped, and its rules are as before.
  lemma SameKeepsRestoring(s: State, t: State, u: nat, op: Op)
    requires WellFormed(op) && Restoring(s, u, op) && SameAt(t.host, s.host, op)
    requires u in t.timers && (t.timers[u] == s.timers[u] || t.timers[u] == s.timers[u].(status := Stopped))
    ensures Restoring(t, u, op)
  {
    match s.timers[u].status {
      case Running(k) => SameKeepsEffect(t.host, s.host, op, k);
      case Finished => SameKeepsEffect(t.host, s.host, op, |UndoScript(op)|);
      case _ =>
    }
  }

  lemma OwnFireKeeps(s: State, outcome: Outcome, u: nat, op: Op)
    requires WellFormed(op) && Restoring(s, u, op)
    ensures Restoring(FireStep(s, u, outcome), u, op)
  {
    match s.timers[u].status {
      case Running(k) => CommandExtends(s.host, op, k);
      case _ =>
    }
  }

  lemma HandlerStatusKeeps(s: State, outcome: Outcome, lag: nat, u: nat)
    requires Inv(s) && u in s.timers
    ensures u in HandlerStep(s, outcome, lag).timers
    ensures HandlerStep(s, outcome, lag).timers[u] == s.timers[u]
            || HandlerStep(s, outcome, lag).timers[u] == s.timers[u].(status := Stopped)
  {
    if s.pc.Cancelling? && s.pc.p.timer == u {
      assert HandlerStep(s, outcome, lag) == CancelStep(s, outcome);
    } else {
      HandlerKeepsTimers(s, outcome, lag, u);
    }
  }

  lemma OnlyHeldApplyingWrites(s: State, outcome: Outcome, lag: nat, u: nat)
    requires HeldUnit(s.pc) == Some(u) && !s.pc.Applying?
    ensures HandlerStep(s, outcome, lag).host == s.host
  {
  }

  // A handler edits only while its timer waits.
  lemma OwnProceedKeeps(s: State, outcome: Outcome, lag: nat, u: nat, op: Op)
    requires Inv(s) && WellFormed(op) && Restoring(s, u, op) && HeldUnit(s.pc) == Some(u)
    ensures Restoring(HandlerStep(s, outcome, lag), u, op)
  {
    var t := HandlerStep(s, outcome, lag);
    HandlerStatusKeeps(s, outcome, lag, u);
    if s.pc.Applying? {
      assert t == ApplyStep(s, outcome);
      if t.host == s.host {
        SameKeepsRestoring(s, t, u, op);
      } else {
        assert s.timers[u].status.Waiting?;
      }
    } else {
      OnlyHeldApplyingWrites(s, outcome, lag, u);
      SameKeepsRestoring(s, t, u, op);
    }
  }

  lemma OwnStepKeeps(s: State, e: Event, u: nat, op: Op)
    requires Inv(s) && WellFormed(op) && Restoring(s, u, op) && OwnStep(s, e, u)
    ensures Restoring(Next(s, e), u, op)
  {
    match e {
      case Fire(_, outcome) => OwnFireKeeps(s, outcome, u, op);
      case Proceed(outcome, lag) => OwnProceedKeeps(s, outcome, lag, u, op);
      case Leftover(i, outcome) => assert Next(s, e).timers[u] == s.timers[u];
    }
  }

  lemma OtherStepTimer(s: State, e: Event, u: nat)
    requires Inv(s) && u in s.timers && !(e.Fire? && e.unit == u)
    ensures u in Next(s, e).timers
    ensures Next(s, e).timers[u] == s.timers[u] || Next(s, e).timers[u] == s.timers[u].(status := Stopped)
  {
    match e {
      case Proceed(outcome, lag) => HandlerStatusKeeps(s, outcome, lag, u);
      case _ =>
    }
  }

  lemma StepKeepsRestoring(s: State, e: Event, u: nat, op: Op)
    requires Inv(s) && WellFormed(op) && Restoring(s, u, op)
    requires SameAt(Next(s, e).host, s.host, op) || OwnStep(s, e, u)
    ensures Restoring(Next(s, e), u, op)
  {
    if OwnStep(s, e, u) {
      OwnStepKeeps(s, e, u, op);
    } else {
      OtherStepTimer(s, e, u);
      SameKeepsRestoring(s, Next(s, e), u, op);
    }
  }

  lemma {:induction false} RunKeepsRestoring(s0: State, events: seq<Event>, i: nat, j: nat, u: nat, op: Op)
    requires Inv(s0) && i <= j <= |events| && WellFormed(op)
    requires Restoring(At(s0, events, i), u, op) && Undisturbed(s0, events, i, j, u, op)
    ensures Restoring(At(s0, events, j), u, op)
  {
    if i < j {
      RunKeepsRestoring(s0, events, i, j - 1, u, op);
      RunKeeps(s0, events, j - 1);
      StepKeepsRestoring(At(s0, events, j - 1), events[j - 1], u, op);
    }
  }

  // In this step an operation arms the timer u.
  ghost predicate Arms(s: State, e: Event, u: nat) {
    s.pc.Arming? && e.Proceed? && u == s.nextUnit && u in Next(s, e).timers
  }

  lemma ArmingStartsRestoring(s: State, e: Event, u: nat)
    requires Inv(s) && Arms(s, e, u)
    ensures Restoring(Next(s, e), u, s.pc.op)
  {
    assert Next(s, e) == ArmStep(s, e.outcome, e.lag);
  }

  ghost predicate Fired(s: State, u: nat) {
    u in s.timers && s.timers[u].status.Finished?
  }

  // However far the change got, however its helper failed or outlived its
  // handler, whenever the panel crashed, and whatever happened to other rules:
  // once the timer has run to its end, the rules of the operation are in each
  // layer exactly where they were when the timer was armed -- if and only if
  // they were ready then.
  lemma {:induction false} FiredTimerRestores(s0: State, events: seq<Event>, i: nat, j: nat, u: nat)
    requires Initial(s0) && i < j <= |events| && Arms(At(s0, events, i), events[i], u)
    requires Undisturbed(s0, events, i + 1, j, u, At(s0, events, i).pc.op)
    requires Fired(At(s0, events, j), u)
    ensures SameAt(At(s0, events, j).host, At(s0, events, i).host, At(s0, events, i).pc.op) <==>
            Ready(At(s0, events, i).host, At(s0, events, i).pc.op)
  {
    var s := At(s0, events, i);
    InitialHolds(s0);
    RunKeeps(s0, events, i);
    ArmingStartsRestoring(s, events[i], u);
    RunKeepsRestoring(s0, events, i + 1, j, u, s.pc.op);
    EffectiveRestores(s.host, At(s0, events, j).host, s.pc.op);
  }

  // A timer that does not exist yet owns no step.
  lemma NobodyOwnsYet(s: State, e: Event, u: nat)
    requires Inv(s) && u >= s.nextUnit && OwnStep(s, e, u)
    ensures Next(s, e).host == s.host
  {
  }

  lemma {:induction false} QuietBeforeArming(s0: State, events: seq<Event>, b: nat, i: nat, u: nat, op: Op)
    requires Initial(s0) && b <= i <= |events| && Undisturbed(s0, events, b, i, u, op)
    requires u >= At(s0, events, i).nextUnit
    ensures SameAt(At(s0, events, i).host, At(s0, events, b).host, op) && u >= At(s0, events, b).nextUnit
  {
    if b < i {
      var s := At(s0, events, i - 1);
      UnitsGrow(s, events[i - 1]);
      QuietBeforeArming(s0, events, b, i - 1, u, op);
      InitialHolds(s0);
      RunKeeps(s0, events, i - 1);
      if OwnStep(s, events[i - 1], u) {
        NobodyOwnsYet(s, events[i - 1], u);
      }
    }
  }

  lemma HandlerUnitsGrow(s: State, outcome: Outcome, lag: nat)
    ensures s.nextUnit <= HandlerStep(s, outcome, lag).nextUnit
  {
  }

  lemma UnitsGrow(s: State, e: Event)
    ensures s.nextUnit <= Next(s, e).nextUnit
  {
    if e.Proceed? {
      HandlerUnitsGrow(s, e.outcome, e.lag);
    }
  }

  // From the accepted request to the end of its timer: any operation but a
  // plain removal is undone exactly.
  lemma {:induction false} AcceptedChangeIsUndone(s0: State, events: seq<Event>, b: nat, i: nat, j: nat, u: nat, op: Op)
    requires Initial(s0) && b < i < j <= |events|
    requires events[b].Begin? && events[b].op == op && Accepts(At(s0, events, b), op, events[b].env)
    requires !op.kind.RemoveAllow?
    requires Arms(At(s0, events, i), events[i], u) && At(s0, events, i).pc.op == op
    requires Undisturbed(s0, events, b, j, u, op) && Fired(At(s0, events, j), u)
    ensures SameAt(At(s0, events, j).host, At(s0, events, b).host, op)
  {
    InitialHolds(s0);
    RunKeeps(s0, events, i);
    UndisturbedSplits(s0, events, b, i, j, u, op);
    UndisturbedSplits(s0, events, i, i + 1, j, u, op);
    QuietBeforeArming(s0, events, b, i, u, op);
    GuardsReady(At(s0, events, b), op, events[b].env);
    SameKeepsReady(At(s0, events, i).host, At(s0, events, b).host, op);
    FiredTimerRestores(s0, events, i, j, u);
  }

  lemma SameKeepsReady(a: Host, b: Host, op: Op)
    requires SameAt(a, b, op)
    ensures Ready(a, op) <==> Ready(b, op)
  {
  }

  // When the other rules are also where they were, the whole host is.
  lemma {:induction false} AcceptedChangeIsUndoneWholly(s0: State, events: seq<Event>, b: nat, i: nat, j: nat, u: nat, op: Op)
    requires Initial(s0) && b < i < j <= |events|
    requires events[b].Begin? && events[b].op == op && Accepts(At(s0, events, b), op, events[b].env)
    requires !op.kind.RemoveAllow?
    requires Arms(At(s0, events, i), events[i], u) && At(s0, events, i).pc.op == op
    requires Undisturbed(s0, events, b, j, u, op) && Fired(At(s0, events, j), u)
    ensures At(s0, events, j).host == At(s0, events, b).host <==>
            AgreeOutside(At(s0, events, j).host, At(s0, events, b).host, op)
  {
    AcceptedChangeIsUndone(s0, events, b, i, j, u, op);
    SameInsideAndOutside(At(s0, events, j).host, At(s0, events, b).host, op);
  }
}
