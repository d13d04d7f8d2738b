/**
 What a confirmed removal, pause or edit has closed stays closed: exactly when
 no timer and no helper could still open it.
 */
module RecoveryGone {
  import opened Common
  import opened FirewallRules
  import opened FirewallText
  import opened FirewallHost
  import opened RecoveryProtocol
  import opened RecoveryInvariant
  import opened RecoverySafety
  import opened RecoveryProgress
  import opened RecoveryOwned
  import opened RecoveryAccess

  predicate SpeaksOf(op: Op, n: Native) {
    op.id == n || op.dest == n
  }

  // ----- What could still open the rule -----

  // The first command that is yet to run.
  function Position(t: Timer): nat {
    if t.status.Running? then t.status.next else 0
  }

  // A command that is yet to run adds the rule.
  predicate WillAdd(t: Timer, n: Native) {
    t.Live() && exists i :: Position(t) <= i < |t.script| && t.script[i].rule == n && t.script[i].present
  }

  // A helper that adds n may open it until it compensates; one that removes n
  // may open it by compensating, once it is past its check.
  predicate CouldOpen(c: Change, phase: Phase, n: Native) {
    c.rule == n && if c.add then !phase.Compensate? else !phase.Check?
  }

  predicate LeftCouldOpen(left: seq<Left>, n: Native) {
    exists i :: 0 <= i < |left| && left[i].phase.Some? && CouldOpen(left[i].change, left[i].phase.value, n)
  }

  // A handler about to arm is yet to change its rules and to schedule its undo.
  predicate HandlerCouldOpen(s: State, n: Native) {
    match s.pc
    case Arming(op, started) => SpeaksOf(op, n) && !Expired(s, started)
    case Applying(op, _, _, step, phase) => step < |Changes(op)| && CouldOpen(Changes(op)[step], phase, n)
    case Undoing(op, phase) => CouldOpen(Change(false, op.id), phase, n)
    case _ => false
  }

  predicate TimerWillAdd(s: State, n: Native) {
    exists u :: u in s.timers && WillAdd(s.timers[u], n)
  }

  // The rule is in no layer, and nothing in progress could put it there.
  predicate Gone(s: State, n: Native) {
    s.host.Nowhere(n) && !TimerWillAdd(s, n) && !LeftCouldOpen(s.left, n) && !HandlerCouldOpen(s, n)
  }

  // No other manager adds the rule, and no request is about it.
  predicate Spares(e: Event, n: Native) {
    (e.External? ==> e.host.Nowhere(n)) && (e.Begin? ==> !SpeaksOf(e.op, n))
  }

  // ----- Every step -----

  lemma FireKeepsGone(s: State, u: nat, outcome: Outcome, n: Native)
    requires TimersOk(s) && Gone(s, n) && u in s.timers
    ensures Gone(FireStep(s, u, outcome), n)
  {
    var t := FireStep(s, u, outcome);
    assert !WillAdd(s.timers[u], n);
    assert !WillAdd(t.timers[u], n);
    forall v | v in t.timers ensures !WillAdd(t.timers[v], n) {
      assert v != u ==> t.timers[v] == s.timers[v];
    }
  }

  // A helper that finds nothing to remove refuses.
  lemma AbsentIsRefused(h: Host, n: Native)
    requires Valid(n) && (n.OpenPort? || IsDrop(n)) && h.Nowhere(n)
    ensures !Admits(h, Change(false, n))
  {
    if Admits(h, Change(false, n)) {
      AdmittedIsReady(h, Change(false, n));
    }
  }

  // One step of a helper that cannot open n leaves it out and stays harmless.
  lemma HelperKeepsGone(h: Host, c: Change, phase: Phase, outcome: Outcome, n: Native)
    requires Valid(c.rule) && (c.rule.OpenPort? || IsDrop(c.rule)) && h.Nowhere(n) && !CouldOpen(c, phase, n)
    ensures var (after, helper) := HelperStep(h, c, phase, outcome);
            after.Nowhere(n) && (helper.Continue? ==> !CouldOpen(c, helper.phase, n))
  {
    if c.rule == n && !c.add {
      AbsentIsRefused(h, n);
    }
  }

  lemma ChangeIsSimple(op: Op, step: nat)
    requires WellFormed(op) && step < |Changes(op)|
    ensures var n := Changes(op)[step].rule; Valid(n) && (n.OpenPort? || IsDrop(n))
  {
  }

  lemma LeavingKeepsGone(s: State, n: Native)
    requires Gone(s, n)
    ensures Gone(LeaveHelper(s), n)
  {
    var d := Detached(s);
    forall i | 0 <= i < |d| && d[i].phase.Some? ensures !CouldOpen(d[i].change, d[i].phase.value, n) {
      if i < |s.left| {
        assert d[i] == s.left[i];
      }
    }
  }

  lemma SoundIsSimple(l: Left)
    requires Sound(l)
    ensures Valid(l.change.rule) && (l.change.rule.OpenPort? || IsDrop(l.change.rule))
  {
    if l.op.kind.IsArmed() {
      var k :| 0 <= k < |Changes(l.op)| && Changes(l.op)[k] == l.change;
      ChangeIsSimple(l.op, k);
    }
  }

  lemma LeftoverKeepsGone(s: State, i: nat, outcome: Outcome, n: Native)
    requires LeftOk(s) && Gone(s, n) && i < |s.left|
    ensures Gone(LeftStep(s, i, outcome), n)
  {
    if s.left[i].phase.Some? {
      SoundIsSimple(s.left[i]);
      HelperKeepsGone(s.host, s.left[i].change, s.left[i].phase.value, outcome, n);
      var t := LeftStep(s, i, outcome);
      forall k | 0 <= k < |t.left| && t.left[k].phase.Some? ensures !CouldOpen(t.left[k].change, t.left[k].phase.value, n) {
        if k != i {
          assert t.left[k] == s.left[k];
        }
      }
    }
  }

  lemma WillAddReadds(t: Timer, n: Native)
    requires WillAdd(t, n)
    ensures Readds(t.script, n)
  {
  }

  lemma NotReadded(t: Timer, n: Native)
    requires !Readds(t.script, n)
    ensures !WillAdd(t, n)
  {
  }

  // The new timer adds no rule but that of its operation.
  lemma ArmKeepsGone(s: State, outcome: Outcome, lag: nat, n: Native)
    requires TimersOk(s) && HeldOk(s) && Gone(s, n) && s.pc.Arming?
    ensures Gone(ArmStep(s, outcome, lag), n)
  {
    var t, op := ArmStep(s, outcome, lag), s.pc.op;
    UndoMentions(op, n);
    forall u | u in t.timers ensures !WillAdd(t.timers[u], n) {
      if u in s.timers && u != s.nextUnit {
        assert t.timers[u] == s.timers[u];
      } else {
        NotReadded(t.timers[u], n);
      }
    }
    if t.pc.Applying? {
      NotOwnChange(op, 0, n);
    }
  }

  lemma NotOwnChange(op: Op, step: nat, n: Native)
    requires step < |Changes(op)| && !SpeaksOf(op, n)
    ensures Changes(op)[step].rule != n
  {
  }

  lemma ApplyKeepsGone(s: State, outcome: Outcome, n: Native)
    requires HeldOk(s) && Gone(s, n) && s.pc.Applying?
    ensures Gone(ApplyStep(s, outcome), n)
  {
    var op := s.pc.op;
    if Expired(s, s.pc.started) || s.pc.step >= |Changes(op)| {
      LeavingKeepsGone(s, n);
    } else {
      ChangeIsSimple(op, s.pc.step);
      HelperKeepsGone(s.host, Changes(op)[s.pc.step], s.pc.phase, outcome, n);
      SecondChangeRemoves(op, s.pc.step + 1);
      assert ApplyStep(s, outcome).timers == s.timers && ApplyStep(s, outcome).left == s.left;
    }
  }

  // The second change of an operation is the removal of an edit.
  lemma SecondChangeRemoves(op: Op, step: nat)
    requires step >= 1
    ensures step < |Changes(op)| ==> !Changes(op)[step].add
  {
  }

  lemma UndoKeepsGone(s: State, outcome: Outcome, n: Native)
    requires HeldOk(s) && Gone(s, n) && s.pc.Undoing?
    ensures Gone(UndoStep(s, outcome), n)
  {
    HelperKeepsGone(s.host, Change(false, s.pc.op.id), s.pc.phase, outcome, n);
    assert UndoStep(s, outcome).timers == s.timers;
  }

  // A stopped timer runs no command.
  lemma CancelKeepsGone(s: State, outcome: Outcome, n: Native)
    requires Gone(s, n) && s.pc.Cancelling?
    ensures Gone(CancelStep(s, outcome), n)
  {
    var t := CancelStep(s, outcome);
    forall u | u in t.timers ensures !WillAdd(t.timers[u], n) {
      assert u in s.timers && !WillAdd(s.timers[u], n);
    }
  }

  lemma RestKeepsGone(s: State, outcome: Outcome, lag: nat, n: Native)
    requires Gone(s, n) && !s.pc.Arming? && !s.pc.Applying? && !s.pc.Undoing? && !s.pc.Cancelling?
    ensures Gone(HandlerStep(s, outcome, lag), n)
  {
    var t := HandlerStep(s, outcome, lag);
    assert t.timers == s.timers && t.left == s.left && t.host == s.host;
  }

  lemma HandlerKeepsGone(s: State, outcome: Outcome, lag: nat, n: Native)
    requires TimersOk(s) && HeldOk(s) && Gone(s, n)
    ensures Gone(HandlerStep(s, outcome, lag), n)
  {
    match s.pc {
      case Arming(_, _) => ArmKeepsGone(s, outcome, lag, n);
      case Applying(_, _, _, _, _) => ApplyKeepsGone(s, outcome, n);
      case Undoing(_, _) => UndoKeepsGone(s, outcome, n);
      case Cancelling(_, _) => CancelKeepsGone(s, outcome, n);
      case _ => RestKeepsGone(s, outcome, lag, n);
    }
  }

  // Time, requests and other managers.
  lemma WorldKeepsGone(s: State, e: Event, n: Native)
    requires Gone(s, n) && Spares(e, n) && !e.Fire? && !e.Proceed? && !e.Crash? && !e.Abandon? && !e.Leftover?
    ensures Gone(Next(s, e), n)
  {
    var t := Next(s, e);
    assert t.timers == s.timers && t.left == s.left;
    if e.Begin? {
      NotOwnChange(e.op, 0, n);
    }
  }

  lemma StepKeepsGone(s: State, e: Event, t: State, n: Native)
    requires Inv(s) && Gone(s, n) && Spares(e, n) && t == Next(s, e)
    ensures Gone(t, n)
  {
    match e {
      case Fire(u, outcome) => if u in s.timers { FireKeepsGone(s, u, outcome, n); }
      case Proceed(outcome, lag) => HandlerKeepsGone(s, outcome, lag, n);
      case Crash => LeavingKeepsGone(s, n);
      case Abandon => LeavingKeepsGone(s, n);
      case Leftover(i, outcome) => if i < |s.left| { LeftoverKeepsGone(s, i, outcome, n); }
      case _ => WorldKeepsGone(s, e, n);
    }
  }

  lemma {:induction false} GoneStays(s: State, events: seq<Event>, i: nat, j: nat, n: Native)
    requires Inv(s) && i <= j <= |events| && Gone(At(s, events, i), n)
    requires forall k :: i <= k < j ==> Spares(events[k], n)
    ensures Gone(At(s, events, j), n)
  {
    if i < j {
      GoneStays(s, events, i, j - 1, n);
      RunKeeps(s, events, j - 1);
      StepKeepsGone(At(s, events, j - 1), events[j - 1], At(s, events, j), n);
    }
  }

  // ----- Exactly when the rule stays out -----

  predicate AllSpare(events: seq<Event>, n: Native) {
    forall k :: 0 <= k < |events| ==> Spares(events[k], n)
  }

  // In no continuation that spares n does n enter a layer.
  ghost predicate StaysGone(s: State, n: Native) {
    forall more: seq<Event> :: AllSpare(more, n) ==> End(s, more).host.Nowhere(n)
  }

  lemma StaysGoneSteps(s: State, e: Event, t: State, n: Native)
    requires StaysGone(s, n) && Spares(e, n) && t == Next(s, e)
    ensures StaysGone(t, n)
  {
    forall more: seq<Event> | AllSpare(more, n) ensures End(t, more).host.Nowhere(n) {
      EndOfOne(s, e, more);
      assert AllSpare([e] + more, n);
    }
  }

  lemma StaysGoneNow(s: State, n: Native)
    requires StaysGone(s, n)
    ensures s.host.Nowhere(n)
  {
    assert AllSpare([], n);
    assert End(s, []).host.Nowhere(n);
  }

  // Where one step that spares n leads, the rule could have entered from here.
  lemma OpensAfter(s: State, e: Event, t: State, n: Native)
    requires Spares(e, n) && t == Next(s, e) && !StaysGone(t, n)
    ensures !StaysGone(s, n)
  {
    if StaysGone(s, n) {
      StaysGoneSteps(s, e, t, n);
    }
  }

  lemma OpensNow(s: State, n: Native)
    requires !s.host.Nowhere(n)
    ensures !StaysGone(s, n)
  {
    if StaysGone(s, n) {
      StaysGoneNow(s, n);
    }
  }

  // ----- Helpers that open it -----

  // A left-over helper of an addition makes its edit; another manager may see
  // to it that its check passes.
  lemma AdditionOpens(s: State, i: nat, n: Native)
    requires i < |s.left| && Sound(s.left[i]) && s.left[i].change == Change(true, n)
    requires s.left[i].phase.Some? && !s.left[i].phase.value.Compensate?
    ensures !StaysGone(s, n)
  {
    if s.left[i].phase.value.Check? {
      SoundIsSimple(s.left[i]);
      var empty := s.(host := Host({}, {}, {n.zone}, {}));
      CheckPasses(empty, i, n);
      EditOpens(Next(empty, Leftover(i, Done)), i, n);
      OpensAfter(empty, Leftover(i, Done), Next(empty, Leftover(i, Done)), n);
      OpensAfter(s, External(empty.host), empty, n);
    } else {
      EditOpens(s, i, n);
    }
  }

  lemma CheckPasses(s: State, i: nat, n: Native)
    requires i < |s.left| && s.left[i].change == Change(true, n) && s.left[i].phase == Some(Check)
    requires (n.OpenPort? || IsDrop(n)) && s.host == Host({}, {}, {n.zone}, {})
    ensures var t := Next(s, Leftover(i, Done));
            |t.left| == |s.left| && t.left[i] == s.left[i].(phase := Some(RuntimeStep))
  {
    assert s.host.Visible() == {};
    assert Admits(s.host, Change(true, n));
  }

  lemma EditOpens(s: State, i: nat, n: Native)
    requires i < |s.left| && s.left[i].change == Change(true, n)
    requires s.left[i].phase == Some(RuntimeStep) || s.left[i].phase == Some(PermanentStep)
    ensures !StaysGone(s, n)
  {
    var t := Next(s, Leftover(i, Done));
    OpensNow(t, n);
    OpensAfter(s, Leftover(i, Done), t, n);
  }

  // One of a removal that is past its check compensates.
  lemma RemovalOpens(s: State, i: nat, n: Native)
    requires i < |s.left| && s.left[i].change == Change(false, n)
    requires s.left[i].phase.Some? && !s.left[i].phase.value.Check?
    ensures !StaysGone(s, n)
    decreases if s.left[i].phase.value.RuntimeStep? then 2 else if s.left[i].phase.value.PermanentStep? then 1 else 0
  {
    var e := Leftover(i, if s.left[i].phase.value.PermanentStep? then FailedClean else Done);
    var t := Next(s, e);
    if s.left[i].phase.value.Compensate? {
      OpensNow(t, n);
    } else {
      RemovalOpens(t, i, n);
    }
    OpensAfter(s, e, t, n);
  }

  lemma LeftOpens(s: State, n: Native)
    requires LeftOk(s) && LeftCouldOpen(s.left, n)
    ensures !StaysGone(s, n)
  {
    var i :| 0 <= i < |s.left| && s.left[i].phase.Some? && CouldOpen(s.left[i].change, s.left[i].phase.value, n);
    if s.left[i].change.add {
      AdditionOpens(s, i, n);
    } else {
      RemovalOpens(s, i, n);
    }
  }

  // The handler's own helper goes on when the panel crashes.
  lemma AttachedOpens(s: State, n: Native)
    requires Inv(s) && (s.pc.Applying? || s.pc.Undoing?) && HandlerCouldOpen(s, n)
    ensures !StaysGone(s, n)
  {
    var t := Next(s, Crash);
    StepKeeps(s, Crash);
    assert CouldOpen(t.left[|t.left| - 1].change, t.left[|t.left| - 1].phase.value, n);
    LeftOpens(t, n);
    OpensAfter(s, Crash, t, n);
  }

  // ----- Timers that open it -----

  // A script that has begun runs on to the command that adds the rule.
  lemma RunningOpens(s: State, u: nat, n: Native)
    requires TimersOk(s) && u in s.timers && s.timers[u].status.Running? && WillAdd(s.timers[u], n)
    ensures !StaysGone(s, n)
    decreases |s.timers[u].script| - s.timers[u].status.next
  {
    var k, t := s.timers[u].status.next, Next(s, Fire(u, Done));
    var c := s.timers[u].script[k];
    if c.rule == n && c.present {
      OpensNow(t, n);
    } else {
      assert t.timers[u] == s.timers[u].(status := Running(k + 1));
      FireMovesStatus(s, u, Done);
      RunningOpens(t, u, n);
    }
    OpensAfter(s, Fire(u, Done), t, n);
  }

  // A timer whose moment has come starts.
  lemma DueOpens(s: State, u: nat, n: Native)
    requires TimersOk(s) && u in s.timers && s.timers[u].status.Waiting? && s.timers[u].fireAt <= s.now && WillAdd(s.timers[u], n)
    ensures !StaysGone(s, n)
  {
    var t := Next(s, Fire(u, Done));
    assert t.timers[u] == s.timers[u].(status := Running(0));
    FireMovesStatus(s, u, Done);
    RunningOpens(t, u, n);
    OpensAfter(s, Fire(u, Done), t, n);
  }

  // The timers that must end before the moment of u.
  function Before(s: State, u: nat): set<nat>
    requires u in s.timers
  {
    set v | v in s.timers && v != u && s.timers[v].Live() && s.timers[v].deadline <= s.timers[u].fireAt
  }

  lemma {:induction false} Earliest(s: State, units: set<nat>) returns (w: nat)
    requires units != {} && units <= s.timers.Keys
    ensures w in units && forall v :: v in units ==> s.timers[w].deadline <= s.timers[v].deadline
    decreases |units|
  {
    w :| w in units;
    if units - {w} != {} {
      var v := Earliest(s, units - {w});
      if s.timers[v].deadline < s.timers[w].deadline {
        w := v;
      }
    }
  }


  // A waiting timer that is due starts; then its first command fails.
  lemma EndsAtOnce(s: State, w: nat, n: Native) returns (t: State)
    requires TimersOk(s) && w in s.timers && s.timers[w].Live() && (s.timers[w].status.Waiting? ==> s.timers[w].fireAt <= s.now)
    ensures TimersOk(t) && w in t.timers && t == s.(timers := s.timers[w := t.timers[w]]) && !t.timers[w].Live()
    ensures !StaysGone(t, n) ==> !StaysGone(s, n)
  {
    if s.timers[w].status.Running? {
      t := BreaksNow(s, w, n);
    } else {
      var r := Next(s, Fire(w, Done));
      FireMovesStatus(s, w, Done);
      t := r;
      if r.timers[w].Live() {
        t := BreaksNow(r, w, n);
        assert t.timers == s.timers[w := t.timers[w]];
      }
      if !StaysGone(t, n) {
        OpensAfter(s, Fire(w, Done), r, n);
      }
    }
  }

  lemma BreaksNow(s: State, w: nat, n: Native) returns (t: State)
    requires TimersOk(s) && w in s.timers && s.timers[w].status.Running?
    ensures TimersOk(t) && t == s.(timers := s.timers[w := s.timers[w].(status := Broken)])
    ensures !StaysGone(t, n) ==> !StaysGone(s, n)
  {
    t := Next(s, Fire(w, FailedClean));
    FireMovesStatus(s, w, FailedClean);
    if !StaysGone(t, n) {
      OpensAfter(s, Fire(w, FailedClean), t, n);
    }
  }

  // Time goes on to the moment of w, which no live timer stands before.
  lemma TimeGoesOn(s: State, w: nat, n: Native) returns (t: State)
    requires TimersOk(s) && w in s.timers && s.timers[w].status.Waiting? && Before(s, w) == {}
    ensures TimersOk(t) && t == s.(now := t.now) && s.timers[w].fireAt <= t.now && (s.timers[w].fireAt <= s.now ==> t == s)
    ensures t.now <= s.timers[w].fireAt || t == s
    ensures !StaysGone(t, n) ==> !StaysGone(s, n)
  {
    t := s;
    if s.now < s.timers[w].fireAt {
      var ms := s.timers[w].fireAt - s.now;
      forall v | v in s.timers && s.timers[v].Live() ensures s.now + ms < s.timers[v].deadline {
        assert v != w ==> v !in Before(s, w);
      }
      t := Next(s, Tick(ms));
      if !StaysGone(t, n) {
        OpensAfter(s, Tick(ms), t, n);
      }
    }
  }

  // Whatever stands before it ends first; then the timer starts and runs.
  lemma WaitingOpens(s: State, u: nat, n: Native)
    requires TimersOk(s) && u in s.timers && s.timers[u].status.Waiting? && WillAdd(s.timers[u], n)
    ensures !StaysGone(s, n)
    decreases |Before(s, u)|
  {
    if Before(s, u) == {} {
      var t := TimeGoesOn(s, u, n);
      DueOpens(t, u, n);
    } else {
      var w := Earliest(s, Before(s, u));
      var r := s;
      if s.timers[w].status.Waiting? {
        NoneBefore(s, u, w);
        r := TimeGoesOn(s, w, n);
      }
      var t := EndsAtOnce(r, w, n);
      OneLess(s, t, u, w);
      WaitingOpens(t, u, n);
    }
  }

  lemma NoneBefore(s: State, u: nat, w: nat)
    requires TimersOk(s) && u in s.timers && w in Before(s, u) && s.timers[u].status.Waiting?
    requires forall v :: v in Before(s, u) ==> s.timers[w].deadline <= s.timers[v].deadline
    ensures Before(s, w) == {}
  {
    forall v | v in s.timers ensures v !in Before(s, w) {
      assert v !in Before(s, u) || s.timers[w].deadline <= s.timers[v].deadline;
    }
  }

  lemma OneLess(s: State, t: State, u: nat, w: nat)
    requires u in s.timers && w in Before(s, u) && w in t.timers && t.timers == s.timers[w := t.timers[w]] && !t.timers[w].Live()
    ensures u in t.timers && t.timers[u] == s.timers[u] && |Before(t, u)| < |Before(s, u)|
  {
    assert Before(t, u) == Before(s, u) - {w};
  }

  lemma TimerOpens(s: State, n: Native)
    requires TimersOk(s) && TimerWillAdd(s, n)
    ensures !StaysGone(s, n)
  {
    var u :| u in s.timers && WillAdd(s.timers[u], n);
    if s.timers[u].status.Running? {
      RunningOpens(s, u, n);
    } else {
      WaitingOpens(s, u, n);
    }
  }

  // A handler that is in time arms its timer and then makes its change.
  lemma ArmingOpens(s: State, n: Native)
    requires Inv(s) && s.pc.Arming? && HandlerCouldOpen(s, n)
    ensures !StaysGone(s, n)
  {
    var e, op := Proceed(Done, 1), s.pc.op;
    var t := Next(s, e);
    StepKeeps(s, e);
    assert t.pc == Applying(op, Some(s.nextUnit), s.pc.started, 0, Check);
    if n == op.id && !op.kind.AddDrop? {
      UndoMentions(op, n);
      assert WillAdd(t.timers[s.nextUnit], n);
      TimerOpens(t, n);
    } else {
      assert Changes(op)[0] == Change(true, n);
      AttachedOpens(t, n);
    }
    OpensAfter(s, e, t, n);
  }

  // Whatever is requested, fails, fires, crashes or is left over: a rule stays
  // out of both layers in every continuation that spares it if and only if it
  // is in neither, no timer is yet to add it, and no helper and no handler that
  // could still open it is at work.
  lemma StaysGoneIffGone(s: State, n: Native)
    requires Inv(s)
    ensures StaysGone(s, n) <==> Gone(s, n)
  {
    if Gone(s, n) {
      forall more: seq<Event> | AllSpare(more, n) ensures End(s, more).host.Nowhere(n) {
        GoneStays(s, more, 0, |more|, n);
      }
    } else if !s.host.Nowhere(n) {
      OpensNow(s, n);
    } else if TimerWillAdd(s, n) {
      TimerOpens(s, n);
    } else if LeftCouldOpen(s.left, n) {
      LeftOpens(s, n);
    } else if s.pc.Arming? {
      ArmingOpens(s, n);
    } else {
      AttachedOpens(s, n);
    }
  }

  // ----- After a confirmation -----

  lemma AnnouncedGone(p: Pending, h: Host)
    requires Announced(p, h) && !p.op.kind.AddDrop? && WellFormed(p.op) && p.op.id.Zone() in h.zones
    ensures h.Nowhere(p.op.id)
  {
  }

  // A live timer without a record is yet to add the rule.
  predicate OrphanWillAdd(s: State, n: Native) {
    exists u :: u in s.timers && WillAdd(s.timers[u], n) && !(exists m :: m in s.db.pending && s.db.pending[m].timer == u)
  }

  // A timer that re-adds the rule of a record is the record's own.
  lemma OnlyOrphansAdd(s: State, p: Pending)
    requires RecordsOk(s) && p.op.id in s.db.pending && s.db.pending[p.op.id] == p && IsStopped(s, p.timer)
    ensures TimerWillAdd(s, p.op.id) <==> OrphanWillAdd(s, p.op.id)
  {
    forall u | u in s.timers && WillAdd(s.timers[u], p.op.id)
      ensures !(exists m :: m in s.db.pending && s.db.pending[m].timer == u)
    {
      forall m | m in s.db.pending ensures s.db.pending[m].timer != u {
        assert RecordOk(s, m, s.db.pending[m]);
        UndoMentions(s.db.pending[m].op, p.op.id);
        if s.db.pending[m].timer == u {
          WillAddReadds(s.timers[u], p.op.id);
        }
      }
    }
  }

  // What the second inspection leaves to be said about the rule.
  ghost predicate Unthreatened(s: State, n: Native) {
    s.host.Nowhere(n) && !TimerWillAdd(s, n) && !LeftCouldOpen(s.left, n)
  }

  lemma ReverifiedIsGone(s: State, e: Event, t: State)
    requires s.pc.Reverifying? && e.Proceed? && t == Next(s, e) && t.pc.Clearing?
    ensures Gone(t, s.pc.p.op.id) <==> Unthreatened(s, s.pc.p.op.id)
    ensures Announced(s.pc.p, s.host)
  {
    assert t == ReverifyStep(s, e.outcome);
    assert t.timers == s.timers && t.left == s.left && t.host == s.host;
  }

  // A confirmed removal, pause or edit, once its second inspection has passed:
  // its rule is in neither layer of any continuation, until another manager
  // adds it or a request is about it, if and only if no timer is yet to add it
  // and no left-over helper could.  With the confirmation's own timer stopped,
  // only a timer without a record can be.
  lemma ConfirmedGoneExactly(s0: State, events: seq<Event>, i: nat)
    requires Initial(s0) && i < |events| && events[i].Proceed?
    requires At(s0, events, i).pc.Reverifying? && At(s0, events, i + 1).pc.Clearing?
    requires !At(s0, events, i).pc.p.op.kind.AddDrop?
    ensures var s, t := At(s0, events, i), At(s0, events, i + 1);
            var n := s.pc.p.op.id;
            && (StaysGone(t, n) <==> Unthreatened(s, n))
            && (n.Zone() in s.host.zones ==> s.host.Nowhere(n))
            && (IsStopped(s, s.pc.p.timer) ==> (TimerWillAdd(s, n) <==> OrphanWillAdd(s, n)))
  {
    var s, t := At(s0, events, i), At(s0, events, i + 1);
    InitialHolds(s0);
    RunKeeps(s0, events, i);
    RunKeeps(s0, events, i + 1);
    ReverifiedIsGone(s, events[i], t);
    StaysGoneIffGone(t, s.pc.p.op.id);
    if s.pc.p.op.id.Zone() in s.host.zones {
      assert RecordOk(s, s.pc.p.op.id, s.pc.p);
      AnnouncedGone(s.pc.p, s.host);
    }
    if IsStopped(s, s.pc.p.timer) {
      OnlyOrphansAdd(s, s.pc.p);
    }
  }

  // So over every run, whatever else is requested, fails, fires, crashes or is
  // left over, and whichever orphan timers and left-over helpers other rules
  // have.
  lemma {:induction false} ConfirmedStaysGone(s0: State, events: seq<Event>, i: nat, j: nat)
    requires Initial(s0) && i < j <= |events| && events[i].Proceed?
    requires At(s0, events, i).pc.Reverifying? && At(s0, events, i + 1).pc.Clearing?
    requires var s := At(s0, events, i);
             var n := s.pc.p.op.id;
             && !s.pc.p.op.kind.AddDrop? && n.Zone() in s.host.zones && IsStopped(s, s.pc.p.timer)
             && !OrphanWillAdd(s, n) && !LeftCouldOpen(s.left, n)
    requires forall k :: i < k < j ==> Spares(events[k], At(s0, events, i).pc.p.op.id)
    ensures At(s0, events, j).host.Nowhere(At(s0, events, i).pc.p.op.id)
  {
    var s, t := At(s0, events, i), At(s0, events, i + 1);
    InitialHolds(s0);
    ConfirmedGoneExactly(s0, events, i);
    ReverifiedIsGone(s, events[i], t);
    GoneStays(s0, events, i + 1, j, s.pc.p.op.id);
  }
}
