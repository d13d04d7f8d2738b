/**
 Runs in which the protocol does less than its messages promise.  Each lemma
 speaks of every state of the described kind, and shows which hypothesis of
 the theorems in RecoveryRestore and RecoveryOwned cannot be dropped.
 */
module RecoveryScenarios {
  import opened Common
  import opened FirewallRules
  import opened FirewallText
  import opened FirewallHost
  import opened RecoveryProtocol
  import opened RecoveryInvariant
  import opened RecoverySafety
  import opened RecoveryRestore
  import opened RecoveryOwned
  import opened RecoveryProgress
  import opened RecoveryRuns

  predicate Quiet(s: State) {
    && s.pc.Idle?
    && (forall u :: u in s.timers ==> !s.timers[u].Live())
    && (forall l :: l in s.left ==> l.phase.None?)
  }

  // ----- A timer that runs to its end -----

  function FireToEnd(u: nat): seq<Event> {
    [Fire(u, Done), Fire(u, Done), Fire(u, Done)]
  }

  // The timer starts, runs both commands of its script and ends.
  lemma ScriptOfTwoRuns(s: State, u: nat)
    requires u in s.timers && s.timers[u].status.Waiting? && s.timers[u].fireAt <= s.now && |s.timers[u].script| == 2
    ensures var t := After(s, FireToEnd(u));
            && t.host == Run(Run(s.host, s.timers[u].script[0]), s.timers[u].script[1])
            && t == s.(host := t.host, timers := s.timers[u := s.timers[u].(status := Finished)])
  {
    var e := Fire(u, Done);
    AfterThree(s, e, e, e);
    var s1 := Next(s, e);
    assert s1.timers[u].status == Running(0) && s1.host == s.host;
    var s2 := Next(s1, e);
    assert s2.timers[u].status == Running(1) && s2.host == Run(s.host, s.timers[u].script[0]);
  }

  // An edit's script has four commands.
  lemma HalfTheScriptRuns(s: State, u: nat)
    requires u in s.timers && s.timers[u].status.Waiting? && s.timers[u].fireAt <= s.now && |s.timers[u].script| == 4
    ensures After(s, FireToEnd(u)) ==
            s.(host := Run(Run(s.host, s.timers[u].script[0]), s.timers[u].script[1]),
               timers := s.timers[u := s.timers[u].(status := Running(2))])
  {
    var e := Fire(u, Done);
    AfterThree(s, e, e, e);
    var s1 := Next(s, e);
    assert s1 == s.(timers := s.timers[u := s.timers[u].(status := Running(0))]);
    var s2 := Next(s1, e);
    assert s2.timers[u].status == Running(1) && s2.host == Run(s.host, s.timers[u].script[0]);
  }

  lemma OtherHalfRuns(s: State, u: nat)
    requires u in s.timers && s.timers[u].status == Running(2) && |s.timers[u].script| == 4
    ensures After(s, [Fire(u, Done), Fire(u, Done)]) ==
            s.(host := Run(Run(s.host, s.timers[u].script[2]), s.timers[u].script[3]),
               timers := s.timers[u := s.timers[u].(status := Finished)])
  {
    var e := Fire(u, Done);
    AfterTwo(s, e, e);
    var s1 := Next(s, e);
    assert s1 == s.(host := Run(s.host, s.timers[u].script[2]), timers := s.timers[u := s.timers[u].(status := Running(3))]);
  }

  // ----- Removing a paused rule re-opens its port -----

  // The request is accepted although the port is closed in both layers; the
  // timer is armed first, the helper then refuses and nothing changes; and two
  // minutes later the timer opens the port.
  lemma RemovingPausedRuleReopens(s: State, op: Op, env: Env)
    requires Inv(s) && Quiet(s) && op.kind.RemoveAllow? && Accepts(s, op, env) && s.host.Nowhere(op.id)
    ensures var refused := After(s, [Begin(op, env), GO, GO]);
            var fired := After(Next(refused, Tick(RESTORE_AFTER - 1)), FireToEnd(s.nextUnit));
            && refused.pc.Idle? && refused.host == s.host && refused.db == s.db
            && fired.host.Everywhere(op.id) && fired.db == s.db
  {
    RefusedAttempt(s, op, env, GO);
    var refused := ArmedFor(s, op).(pc := Idle);
    assert MayAdvance(refused, RESTORE_AFTER - 1);
    ScriptOfTwoRuns(refused.(now := s.now + RESTORE_AFTER - 1), s.nextUnit);
  }

  // The helper's check does not pass: the timer is armed, and that is all.
  lemma RefusedAttempt(s: State, op: Op, env: Env, last: Event)
    requires s.pc.Idle? && Accepts(s, op, env) && op.kind.IsArmed() && last.Proceed?
    requires !last.outcome.Done? || !Admits(s.host, Changes(op)[0])
    ensures After(s, [Begin(op, env), GO, last]) == ArmedFor(s, op).(pc := Idle)
  {
    assert [Begin(op, env), GO, last] == [Begin(op, env), GO] + [last];
    AfterBoth(s, [Begin(op, env), GO], [last]);
    ArmedRequest(s, op, env);
    CheckFails(ArmedFor(s, op), last);
  }

  lemma CheckFails(s: State, last: Event)
    requires s.pc.Applying? && s.pc.step == 0 && s.pc.phase.Check? && s.pc.started == s.now && last.Proceed?
    requires !last.outcome.Done? || !Admits(s.host, Changes(s.pc.op)[0])
    ensures After(s, [last]) == s.(pc := Idle)
  {
    AfterOne(s, last);
    assert Next(s, last) == ApplyStep(s, last.outcome);
  }

  // ----- A confirmation of a stopped timer strands its rule -----

  // A pause: the rule is gone, no metadata says so, and no resume is accepted.
  // A block: it is in force, nobody owns it, and no request on it is accepted.
  ghost predicate Stranded(t: State, op: Op) {
    var n := op.id;
    match op.kind
    case PauseAllow => t.host.Nowhere(n) && n !in t.db.paused && forall env :: !Accepts(t, Op(ResumeAllow, n, n), env)
    case PauseDrop => t.host.Nowhere(n) && n !in t.db.paused && forall env :: !Accepts(t, Op(ResumeDrop, n, n), env)
    case AddDrop => t.host.Everywhere(n) && n !in t.db.owned && forall other: Op, env :: other.id == n ==> !Accepts(t, other, env)
    case _ => false
  }

  lemma DisownedBlockRefuses(t: State, n: Native, op: Op, env: Env)
    requires IsDrop(n) && n in t.host.Visible() && n !in t.db.owned && op.id == n
    ensures !Accepts(t, op, env)
  {
    if op.kind.AddDrop? {
      assert n in t.host.Governing(n.port, n.protocol);
    }
  }

  lemma UnpausedRefuses(t: State, op: Op, env: Env)
    requires op.id !in t.db.paused && (op.kind.ResumeAllow? || op.kind.ResumeDrop?)
    ensures !Accepts(t, op, env)
  {
  }

  lemma AnnouncedWhere(p: Pending, h: Host)
    requires Announced(p, h) && IsStaged(p.op.kind) && WellFormed(p.op) && p.op.id.zone in h.zones
    ensures if p.op.kind.AddDrop? then h.Everywhere(p.op.id) && p.op.id in h.Visible() else h.Nowhere(p.op.id)
  {
  }

  lemma WithdrawnStrands(s: State, p: Pending)
    requires Announced(p, s.host) && IsStaged(p.op.kind) && WellFormed(p.op) && p.op.id.zone in s.host.zones
    ensures Stranded(s.(db := Unstage(Stage(s.db, p.op), p.op)), p.op)
  {
    var t, n := s.(db := Unstage(Stage(s.db, p.op), p.op)), p.op.id;
    AnnouncedWhere(p, s.host);
    if p.op.kind.AddDrop? {
      forall other: Op, env | other.id == n ensures !Accepts(t, other, env) {
        DisownedBlockRefuses(t, n, other, env);
      }
    } else {
      var resume := Op(if p.op.kind.PauseAllow? then ResumeAllow else ResumeDrop, n, n);
      forall env ensures !Accepts(t, resume, env) {
        UnpausedRefuses(t, resume, env);
      }
    }
  }

  // A confirmation that nothing disturbs leaves its rule stranded exactly when
  // the timer of the record is no longer live.
  lemma StrandedIffNotLive(s: State, p: Pending)
    requires Inv(s) && s.pc.Idle? && ConfirmAccepted(s, p.op.id, p.token, true) && s.db.pending[p.op.id] == p
    requires IsStaged(p.op.kind) && p.op.id.zone in s.host.zones
    ensures Brings(s, Confirm(p.op.id, p.token, true), Confirmed(s, p))
    ensures Stranded(Confirmed(s, p), p.op) <==> !IsLive(s, p.timer)
  {
    ConfirmedIffLive(s, p);
    if !IsLive(s, p.timer) {
      WithdrawnStrands(s, p);
    }
  }

  // How that comes about: the timer is stopped, and then the panel crashes or
  // the second inspection fails.  Either way the next confirmation strands the
  // rule, and nothing is left that could change it.
  lemma RepeatedConfirmationStrands(s: State, p: Pending, last: Event)
    requires Inv(s) && s.pc == Cancelling(p, s.host) && s.timers[p.timer].status.Waiting? && s.now < p.deadline
    requires IsStaged(p.op.kind) && p.op.id.zone in s.host.zones
    requires last.Crash? || (last.Proceed? && !last.outcome.Done?)
    requires forall u :: u in s.timers && u != p.timer ==> !s.timers[u].Live()
    requires forall l :: l in s.left ==> l.phase.None?
    ensures var t := After(s, [GO, last]);
            && ConfirmAccepted(t, p.op.id, p.token, true)
            && Brings(t, Confirm(p.op.id, p.token, true), Confirmed(t, p))
            && Stranded(Confirmed(t, p), p.op) && Quiet(Confirmed(t, p))
  {
    StoppedThenDropped(s, p, last);
    AfterKeeps(s, [GO, last]);
    var t := After(s, [GO, last]);
    StageKeepsRecords(s.db, p.op);
    StrandedIffNotLive(t, p);
  }

  lemma StoppedThenDropped(s: State, p: Pending, last: Event)
    requires s.pc == Cancelling(p, s.host) && p.timer in s.timers && s.timers[p.timer].status.Waiting?
    requires last.Crash? || (last.Proceed? && !last.outcome.Done?)
    ensures After(s, [GO, last]) == s.(timers := s.timers[p.timer := s.timers[p.timer].(status := Stopped)], pc := Idle)
  {
    AfterTwo(s, GO, last);
    assert Next(s, GO) == CancelStep(s, Done);
  }

  // ----- A script that has begun is not stopped -----

  // A block is confirmed while its timer runs the first command of its undoing:
  // the confirmation reports success, and the script goes on to remove the
  // block.
  lemma BegunScriptUndoesConfirmedBlock(s: State, p: Pending)
    requires Inv(s) && s.pc.Idle? && ConfirmAccepted(s, p.op.id, p.token, true) && s.db.pending[p.op.id] == p
    requires p.op.kind.AddDrop? && s.timers[p.timer].status == Running(0) && p.op.id !in s.db.paused
    requires forall u :: u in s.timers && u != p.timer ==> !s.timers[u].Live()
    ensures var n, t := p.op.id, After(Confirmed(s, p), [Fire(p.timer, Done), Fire(p.timer, Done)]);
            && Brings(s, Confirm(n, p.token, true), Confirmed(s, p))
            && n in t.db.owned && n !in t.db.pending && t.host.Nowhere(n)
            && !Kept(t.host, t.db, t.timers, n)
  {
    ConfirmedIffLive(s, p);
    StoreOne(Stage(s.db, p.op), DropPending(p.op.id));
    BegunScriptRemoves(Confirmed(s, p), p.timer, p.op.id);
  }

  lemma BegunScriptRemoves(s: State, u: nat, n: Native)
    requires u in s.timers && s.timers[u].status == Running(0) && s.timers[u].script == DropUndoScript(false, n)
    ensures After(s, [Fire(u, Done), Fire(u, Done)]) ==
            s.(host := Applied(s.host, Change(false, n)), timers := s.timers[u := s.timers[u].(status := Finished)])
  {
    AfterTwo(s, Fire(u, Done), Fire(u, Done));
    assert FireStep(s, u, Done).timers[u].status == Running(1);
  }

  // ----- Staged ownership outlives the block -----

  // The panel crashes when it has staged the ownership of a block; the timer
  // then removes the block, which stays owned.  Its record is all that is left.
  lemma StagedBlockOutlivesUndoing(s: State, p: Pending)
    requires Inv(s) && s.pc == Cancelling(p, s.host) && p.op.kind.AddDrop?
    requires s.timers[p.timer].status.Waiting? && s.timers[p.timer].fireAt <= s.now
    ensures var n, t := p.op.id, After(Next(s, Crash), FireToEnd(p.timer));
            && n in t.db.owned && t.host.Nowhere(n)
            && n in t.db.pending && t.db.pending[n] == p
            && p.timer in t.timers && t.timers[p.timer].status.Finished?
  {
    ScriptOfTwoRuns(Next(s, Crash), p.timer);
  }

  // ----- An orphan timer undoes a confirmed change -----

  // A timer is left over from an operation whose helper failed; the same block
  // was then requested again, confirmed and is owned.  The left-over timer
  // still takes it away, and nothing will put it back.
  lemma OrphanTimerUndoesConfirmedBlock(s: State, u: nat, n: Native)
    requires Inv(s) && s.pc.Idle? && WellFormed(Op(AddDrop, n, n))
    requires u in s.timers && s.timers[u].status.Waiting? && s.timers[u].script == UndoScript(Op(AddDrop, n, n))
    requires s.timers[u].fireAt <= s.now
    requires forall v :: v in s.timers && v != u ==> !s.timers[v].Live()
    requires n in s.db.owned && s.host.Everywhere(n) && n !in s.db.paused && n !in s.db.pending
    ensures var t := After(s, FireToEnd(u));
            n in t.db.owned && t.host.Nowhere(n) && !Kept(t.host, t.db, t.timers, n)
  {
    ScriptOfTwoRuns(s, u);
  }

  // How the left-over timer comes about: the helper of a first attempt fails
  // before it changes anything, and the second attempt is accepted at once.
  lemma FailedAttemptLeavesOrphan(s: State, op: Op, env: Env)
    requires Inv(s) && Quiet(s) && op.kind.AddDrop? && Accepts(s, op, env)
    ensures var t := After(s, [Begin(op, env), GO, Proceed(FailedClean, 1)]);
            && t.pc.Idle? && t.host == s.host && t.db == s.db
            && s.nextUnit in t.timers && t.timers[s.nextUnit].Live() && t.timers[s.nextUnit].script == UndoScript(op)
            && !NoOrphans(t)
            && Accepts(t, op, env)
  {
    RefusedAttempt(s, op, env, Proceed(FailedClean, 1));
    var t := ArmedFor(s, op).(pc := Idle);
    assert t.timers[s.nextUnit].Live();
    SameRequestAccepted(s, t, op, env);
  }

  lemma SameRequestAccepted(s: State, t: State, op: Op, env: Env)
    requires Accepts(s, op, env) && t.host == s.host && t.db == s.db && t.now == s.now
    ensures Accepts(t, op, env)
  {
  }

  // ----- Helpers that are left over -----

  // A plain addition has been admitted when the panel crashes, and its helper
  // is slow.  The addition is requested again and succeeds; then the permanent
  // command of the first helper fails, and its compensation takes the rule out
  // of the runtime layer.
  lemma SlowHelperCloses(s: State, n: Native, env: Env)
    requires Quiet(s) && s.left == [] && Accepts(s, Op(AddAllow, n, n), env) && Admits(s.host, Change(true, n))
    requires n !in s.db.paused && n !in s.db.pending
    ensures var begin := Begin(Op(AddAllow, n, n), env);
            var crashed := After(s, [begin, GO, Crash]);
            var t := After(Added(crashed, n), [Leftover(0, Done), Leftover(0, FailedClean), Leftover(0, Done)]);
            && Brings(crashed, begin, Added(crashed, n)) && Added(crashed, n).host.Everywhere(n)
            && Quiet(t) && n in t.db.owned && n !in t.host.runtime && !Kept(t.host, t.db, t.timers, n)
  {
    var op := Op(AddAllow, n, n);
    AdmittedThenCrashed(s, n, env);
    var crashed := After(s, [Begin(op, env), GO, Crash]);
    SameRequestAccepted(s, crashed, op, env);
    AdditionBrings(crashed, n, env);
    SlowHelperEnds(Added(crashed, n), crashed.left[0], n);
  }

  lemma AdmittedThenCrashed(s: State, n: Native, env: Env)
    requires s.pc.Idle? && s.left == [] && Accepts(s, Op(AddAllow, n, n), env) && Admits(s.host, Change(true, n))
    ensures After(s, [Begin(Op(AddAllow, n, n), env), GO, Crash]) ==
            s.(left := [Left(Op(AddAllow, n, n), None, Change(true, n), Some(RuntimeStep))])
  {
    var op := Op(AddAllow, n, n);
    AfterThree(s, Begin(op, env), GO, Crash);
    assert Next(s, Begin(op, env)) == s.(pc := Applying(op, None, s.now, 0, Check));
    assert Next(Next(s, Begin(op, env)), GO) == s.(pc := Applying(op, None, s.now, 0, RuntimeStep));
  }

  lemma SlowHelperEnds(s: State, l: Left, n: Native)
    requires s.left == [l] && l.change == Change(true, n) && l.phase == Some(RuntimeStep) && s.host.Everywhere(n)
    ensures After(s, [Leftover(0, Done), Leftover(0, FailedClean), Leftover(0, Done)]) ==
            s.(host := s.host.Set(Runtime, n, false), left := [l.(phase := None)])
  {
    var failing, last := [Leftover(0, Done), Leftover(0, FailedClean)], [Leftover(0, Done)];
    assert failing + last == [Leftover(0, Done), Leftover(0, FailedClean), Leftover(0, Done)];
    AfterBoth(s, failing, last);
    SlowHelperFails(s, l, n);
    var t := s.(left := [l.(phase := Some(Compensate))]);
    AfterOne(t, Leftover(0, Done));
    assert LeftStep(t, 0, Done).left == [l.(phase := None)];
  }

  // Its runtime command changes nothing, its permanent command fails.
  lemma SlowHelperFails(s: State, l: Left, n: Native)
    requires s.left == [l] && l.change == Change(true, n) && l.phase == Some(RuntimeStep) && s.host.Everywhere(n)
    ensures After(s, [Leftover(0, Done), Leftover(0, FailedClean)]) == s.(left := [l.(phase := Some(Compensate))])
  {
    AfterTwo(s, Leftover(0, Done), Leftover(0, FailedClean));
    assert s.host.runtime + {n} == s.host.runtime;
    assert LeftStep(s, 0, Done) == s.(left := [l.(phase := Some(PermanentStep))]);
  }

  // A pause is abandoned by its handler before the first command.  The timer
  // runs and ends; then the helper closes the rule, and nothing will re-open it.
  lemma LateHelperLosesRule(s: State, n: Native, env: Env)
    requires Inv(s) && Quiet(s) && s.left == [] && Accepts(s, Op(PauseAllow, n, n), env) && n !in s.db.pending
    ensures var left := After(After(s, [Begin(Op(PauseAllow, n, n), env), GO]), [GO, Abandon]);
            var fired := After(Next(left, Tick(RESTORE_AFTER - 1)), FireToEnd(s.nextUnit));
            var t := After(fired, [Leftover(0, Done), Leftover(0, Done)]);
            && left.host == s.host && fired.host == s.host
            && Quiet(t) && n in t.db.owned && t.host.Nowhere(n) && !Kept(t.host, t.db, t.timers, n)
  {
    var op := Op(PauseAllow, n, n);
    AbandonedPause(s, n, env);
    var left := After(After(s, [Begin(op, env), GO]), [GO, Abandon]);
    assert s.host.Everywhere(n);
    PutBackUnchanged(s, left, n);
    var fired := After(Next(left, Tick(RESTORE_AFTER - 1)), FireToEnd(s.nextUnit));
    LateHelperEnds(fired, fired.left[0], n);
  }

  // The timer of a pause that has not begun changes nothing.
  lemma PutBackUnchanged(s: State, left: State, n: Native)
    requires Quiet(s) && left.timers == ArmedFor(s, Op(PauseAllow, n, n)).timers && left.now == s.now
    requires left.host.Everywhere(n)
    ensures After(Next(left, Tick(RESTORE_AFTER - 1)), FireToEnd(s.nextUnit)) ==
            left.(now := s.now + RESTORE_AFTER - 1,
                  timers := left.timers[s.nextUnit := left.timers[s.nextUnit].(status := Finished)])
  {
    assert MayAdvance(left, RESTORE_AFTER - 1);
    ScriptOfTwoRuns(left.(now := s.now + RESTORE_AFTER - 1), s.nextUnit);
    assert left.host.runtime + {n} == left.host.runtime && left.host.permanent + {n} == left.host.permanent;
  }

  lemma AbandonedPause(s: State, n: Native, env: Env)
    requires s.pc.Idle? && s.left == [] && Accepts(s, Op(PauseAllow, n, n), env)
    ensures var op := Op(PauseAllow, n, n);
            After(After(s, [Begin(op, env), GO]), [GO, Abandon]) ==
            ArmedFor(s, op).(pc := Idle, left := [Left(op, Some(s.nextUnit), Change(false, n), Some(RuntimeStep))])
  {
    var op := Op(PauseAllow, n, n);
    ArmedRequest(s, op, env);
    PauseIsAdmitted(s, n, env);
    CheckThenAbandoned(ArmedFor(s, op), n);
  }

  lemma PauseIsAdmitted(s: State, n: Native, env: Env)
    requires Accepts(s, Op(PauseAllow, n, n), env)
    ensures Admits(s.host, Change(false, n))
  {
    var op := Op(PauseAllow, n, n);
    AcceptedGoes(s, op, env);
    assert Admits(AppliedFirst(s.host, op, 0), Changes(op)[0]);
  }

  lemma CheckThenAbandoned(s: State, n: Native)
    requires s.pc.Applying? && s.pc.op == Op(PauseAllow, n, n) && s.pc.step == 0 && s.pc.phase.Check? && s.pc.started == s.now
    requires s.left == [] && Admits(s.host, Change(false, n))
    ensures After(s, [GO, Abandon]) ==
            s.(pc := Idle, left := [Left(s.pc.op, s.pc.timer, Change(false, n), Some(RuntimeStep))])
  {
    AfterTwo(s, GO, Abandon);
    assert Next(s, GO) == ApplyStep(s, Done);
  }

  lemma LateHelperEnds(s: State, l: Left, n: Native)
    requires s.left == [l] && l.change == Change(false, n) && l.phase == Some(RuntimeStep)
    ensures After(s, [Leftover(0, Done), Leftover(0, Done)]) ==
            s.(host := Applied(s.host, Change(false, n)), left := [l.(phase := None)])
  {
    AfterTwo(s, Leftover(0, Done), Leftover(0, Done));
    var s1 := Next(s, Leftover(0, Done));
    assert s1 == s.(host := s.host.Set(Runtime, n, false), left := [l.(phase := Some(PermanentStep))]);
    assert Next(s1, Leftover(0, Done)).left == [l.(phase := None)];
  }

  // ----- Overlapping edits -----

  // A rule is moved from a to b and then from b to c, each with its own timer.
  // Undone last first, the host is as before; undone first first, b stays open.
  lemma OverlappingEdits(before: Host, a: Native, b: Native, c: Native)
    requires WellFormed(Op(EditExternal, a, b)) && WellFormed(Op(EditExternal, b, c)) && a != c
    requires Ready(before, Op(EditExternal, a, b)) && before.Nowhere(c)
    ensures var moved := before.(runtime := before.runtime - {a} + {c}, permanent := before.permanent - {a} + {c});
            && RunScript(RunScript(moved, EditUndoScript(b, c)), EditUndoScript(a, b)) == before
            && RunScript(RunScript(moved, EditUndoScript(a, b)), EditUndoScript(b, c)) ==
               before.(runtime := before.runtime + {b}, permanent := before.permanent + {b})
  {
    var moved := before.(runtime := before.runtime - {a} + {c}, permanent := before.permanent - {a} + {c});
    EditScriptEffect(moved, b, c);
    EditScriptEffect(RunScript(moved, EditUndoScript(b, c)), a, b);
    EditScriptEffect(moved, a, b);
    EditScriptEffect(RunScript(moved, EditUndoScript(a, b)), b, c);
    assert before.runtime - {a} + {c} + {b} - {c} + {a} - {b} == before.runtime;
    assert before.permanent - {a} + {c} + {b} - {c} + {a} - {b} == before.permanent;
    assert before.runtime - {a} + {c} + {a} - {b} + {b} - {c} == before.runtime + {b};
    assert before.permanent - {a} + {c} + {a} - {b} + {b} - {c} == before.permanent + {b};
  }

  lemma EditScriptEffect(h: Host, a: Native, b: Native)
    ensures RunScript(h, EditUndoScript(a, b)) ==
            h.(runtime := h.runtime + {a} - {b}, permanent := h.permanent + {a} - {b})
  {
    var script := EditUndoScript(a, b);
    assert script[1..][1..] == script[2..] && script[2..][1..] == script[3..] && script[3..][1..] == [];
    var h1 := Run(h, script[0]);
    var h2 := Run(h1, script[1]);
    var h3 := Run(h2, script[2]);
    assert RunScript(h, script) == RunScript(h1, script[1..]);
    assert RunScript(h1, script[1..]) == RunScript(h2, script[2..]);
    assert RunScript(h2, script[2..]) == RunScript(h3, script[3..]);
  }

  // ----- An owned rule between two edits -----

  function Edit(from: Native, to: Native): Op {
    Op(EditExternal, from, to)
  }

  predicate OtherPort(b: Native, c: Native) {
    b.OpenPort? && c.OpenPort? && !(b.port == c.port && b.protocol == c.protocol)
  }

  lemma EditedVisible(s: State, op: Op, env: Env, m: Native)
    requires Accepts(s, op, env) && op.kind.EditExternal?
    ensures AppliedAll(s.host, op) == Applied(Applied(s.host, Change(true, op.dest)), Change(false, op.id))
    ensures m in AppliedAll(s.host, op).Visible() <==> (m in s.host.Visible() && m != op.id) || m == op.dest
  {
    var h1 := Applied(s.host, Change(true, op.dest));
    assert AppliedFirst(s.host, op, 0) == s.host;
    assert AppliedFirst(s.host, op, 1) == h1;
    AddedIsVisible(s.host, op.dest, m);
    RemovedIsInvisible(h1, op.id, m);
  }

  // Where a could have been moved to b or to c, it can be moved to b and then
  // on to c, although the timer that would undo the first edit is armed.
  lemma SecondEditAccepted(s: State, a: Native, b: Native, c: Native, env: Env)
    requires Accepts(s, Edit(a, b), env) && Accepts(s, Edit(a, c), env) && OtherPort(b, c)
    ensures Accepts(Edited(s, Edit(a, b)), Edit(b, c), env)
  {
    var t := Edited(s, Edit(a, b));
    AcceptedGoes(s, Edit(a, b), env);
    EditedVisible(s, Edit(a, b), env, b);
    forall m | m in t.host.Visible() && m != b
      ensures !SameSocket(m, b) && !(m.ContainsPort(c.port) && m.protocol == c.protocol)
    {
      EditedVisible(s, Edit(a, b), env, m);
    }
  }

  // The rules around b and c once the second edit is recorded.
  lemma SecondEditHost(s: State, a: Native, b: Native, c: Native, env: Env, m: Native)
    requires Accepts(s, Edit(a, b), env) && Accepts(s, Edit(a, c), env) && OtherPort(b, c)
    requires m in Edited(Edited(s, Edit(a, b)), Edit(b, c)).host.Visible() && m != c
    ensures !SameSocket(m, b) && !SameSocket(m, c) && !(m.ContainsPort(b.port) && m.protocol == b.protocol)
  {
    var t := Edited(s, Edit(a, b));
    SecondEditAccepted(s, a, b, c, env);
    EditedVisible(t, Edit(b, c), env, m);
    EditedVisible(s, Edit(a, b), env, m);
    if SameSocket(m, c) {
      SocketIsCovered(m, c);
    }
  }

  lemma SocketIsCovered(m: Native, n: Native)
    requires n.OpenPort? && FirewallText.Valid(n) && SameSocket(m, n)
    ensures m.ContainsPort(n.port) && m.protocol == n.protocol
  {
  }

  // Both edits are recorded; the second can be confirmed at once.
  lemma SecondEditConfirmable(s: State, a: Native, b: Native, c: Native, env: Env)
    requires Accepts(s, Edit(a, b), env) && Accepts(s, Edit(a, c), env) && OtherPort(b, c)
    ensures var t := Edited(Edited(s, Edit(a, b)), Edit(b, c));
            ConfirmAccepted(t, b, s.nextToken + 1, true)
  {
    var t := Edited(Edited(s, Edit(a, b)), Edit(b, c));
    SecondEditAccepted(s, a, b, c, env);
    AcceptedGoes(Edited(s, Edit(a, b)), Edit(b, c), env);
    assert EditLanded(t.host, Edit(b, c));
    forall m | m in t.host.Visible() && m != c ensures !SameSocket(m, b) && !SameSocket(m, c) {
      SecondEditHost(s, a, b, c, env, m);
    }
  }

  // The settings and the timers once the second edit is confirmed.
  lemma SecondEditConfirmed(s: State, a: Native, b: Native, c: Native)
    requires b != c && Inv(s)
    ensures var t := Edited(Edited(s, Edit(a, b)), Edit(b, c));
            var r := Confirmed(t, t.db.pending[b]);
            && r.host == t.host && r.now == s.now && r.pc == s.pc && r.left == s.left
            && r.db == t.db.(note := Moved(t.db.note, b, c), purpose := Moved(t.db.purpose, b, c), pending := t.db.pending - {b})
            && r.timers == t.timers[s.nextUnit + 1 := t.timers[s.nextUnit + 1].(status := Stopped)]
  {
    var t := Edited(Edited(s, Edit(a, b)), Edit(b, c));
    EditMovesAnnotations(t.db.pending[b], t.db);
  }

  // The source of the second edit is free again: opening it is accepted.
  lemma ReopeningAccepted(s: State, r: State, a: Native, b: Native, c: Native, env: Env)
    requires Accepts(s, Edit(a, b), env) && Accepts(s, Edit(a, c), env) && OtherPort(b, c)
    requires r.host == Edited(Edited(s, Edit(a, b)), Edit(b, c)).host && b !in r.db.pending
    ensures Accepts(r, Op(AddAllow, b, b), env) && Admits(r.host, Change(true, b))
  {
    SecondEditAccepted(s, a, b, c, env);
    EditedVisible(Edited(s, Edit(a, b)), Edit(b, c), env, c);
    EditedVisible(s, Edit(a, b), env, b);
    assert r.host.zones == s.host.zones && r.host.opaqueZones == s.host.opaqueZones;
    forall m ensures m !in r.host.GoverningIn(b.zone, b.port, b.protocol) {
      if m in r.host.Visible() && m != c {
        SecondEditHost(s, a, b, c, env, m);
      }
    }
  }

  // The first timer ends and removes b.
  lemma FirstEditUndone(s: State, u: nat, a: Native, b: Native)
    requires u in s.timers && s.timers[u].status.Waiting? && s.timers[u].script == UndoScript(Edit(a, b))
    requires s.timers[u].fireAt <= s.now && a != b
    ensures var t := After(After(s, FireToEnd(u)), [Fire(u, Done), Fire(u, Done)]);
            && t.host.Nowhere(b) && t.host.Everywhere(a)
            && t == s.(host := t.host, timers := s.timers[u := s.timers[u].(status := Finished)])
  {
    HalfTheScriptRuns(s, u);
    OtherHalfRuns(After(s, FireToEnd(u)), u);
  }

  // A rule is moved from a to b, then, before that is confirmed, from b to c;
  // the second edit is confirmed and b is opened again and owned.  Every request
  // is accepted.  The timer of the first edit then removes b, and nothing will
  // put it back.
  lemma OverlappingEditsLoseOwnedRule(s: State, a: Native, b: Native, c: Native, env: Env)
    requires Inv(s) && Quiet(s) && OtherPort(b, c)
    requires Accepts(s, Edit(a, b), env) && Accepts(s, Edit(a, c), env)
    ensures var first := Edited(s, Edit(a, b));
            var second := Edited(first, Edit(b, c));
            var confirmed := Confirmed(second, second.db.pending[b]);
            var reopened := Added(confirmed, b);
            var late := Next(reopened, Tick(RESTORE_AFTER - 1));
            var t := After(After(late, FireToEnd(s.nextUnit)), [Fire(s.nextUnit, Done), Fire(s.nextUnit, Done)]);
            && Brings(s, Begin(Edit(a, b), env), first) && !Untouched(first, b)
            && Brings(first, Begin(Edit(b, c), env), second)
            && Brings(second, Confirm(b, second.db.pending[b].token, true), confirmed)
            && Brings(confirmed, Begin(Op(AddAllow, b, b), env), reopened)
            && reopened.host.Everywhere(b) && Quiet(t)
            && b in t.db.owned && t.host.Nowhere(b) && !Kept(t.host, t.db, t.timers, b)
  {
    EditsAreAccepted(s, a, b, c, env);
    ReopeningSucceeds(s, a, b, c, env);
    FirstEditStrikes(s, Reopened(s, a, b, c), a, b);
  }

  ghost function Reopened(s: State, a: Native, b: Native, c: Native): State {
    var second := Edited(Edited(s, Edit(a, b)), Edit(b, c));
    Added(Confirmed(second, second.db.pending[b]), b)
  }

  lemma ArmedTouches(s: State, a: Native, b: Native)
    ensures !Untouched(Edited(s, Edit(a, b)), b)
  {
    var t := Edited(s, Edit(a, b));
    assert t.timers[s.nextUnit].script[2].rule == b && t.timers[s.nextUnit].Live();
  }

  lemma ReopeningSucceeds(s: State, a: Native, b: Native, c: Native, env: Env)
    requires Inv(s) && Quiet(s) && OtherPort(b, c)
    requires Accepts(s, Edit(a, b), env) && Accepts(s, Edit(a, c), env)
    ensures var second := Edited(Edited(s, Edit(a, b)), Edit(b, c));
            Brings(Confirmed(second, second.db.pending[b]), Begin(Op(AddAllow, b, b), env), Reopened(s, a, b, c))
    ensures Reopened(s, a, b, c).host.Everywhere(b) && OnlyFirstEditArmed(s, Reopened(s, a, b, c), a, b) && a != b
  {
    var second := Edited(Edited(s, Edit(a, b)), Edit(b, c));
    var confirmed := Confirmed(second, second.db.pending[b]);
    FirstEditIsLeft(s, a, b, c);
    ReopeningAccepted(s, confirmed, a, b, c, env);
    AdditionBrings(confirmed, b, env);
  }

  lemma FirstEditIsLeft(s: State, a: Native, b: Native, c: Native)
    requires Inv(s) && s.pc.Idle? && a != b && b != c && b !in s.db.paused
    ensures OnlyFirstEditArmed(s, Reopened(s, a, b, c), a, b)
    ensures var second := Edited(Edited(s, Edit(a, b)), Edit(b, c));
            var confirmed := Confirmed(second, second.db.pending[b]);
            confirmed.host == second.host && b !in confirmed.db.pending && confirmed.pc.Idle?
  {
    SecondEditConfirmed(s, a, b, c);
    FreshUnits(s);
  }

  lemma FreshUnits(s: State)
    requires Inv(s)
    ensures s.nextUnit !in s.timers && s.nextUnit + 1 !in s.timers
  {
  }

  lemma EditsAreAccepted(s: State, a: Native, b: Native, c: Native, env: Env)
    requires Quiet(s) && OtherPort(b, c) && Accepts(s, Edit(a, b), env) && Accepts(s, Edit(a, c), env)
    ensures var first := Edited(s, Edit(a, b));
            var second := Edited(first, Edit(b, c));
            var p := second.db.pending[b];
            && Brings(s, Begin(Edit(a, b), env), first) && !Untouched(first, b)
            && Brings(first, Begin(Edit(b, c), env), second)
            && Brings(second, Confirm(b, p.token, true), Confirmed(second, p))
  {
    ArmedTouches(s, a, b);
    var first := Edited(s, Edit(a, b));
    var second := Edited(first, Edit(b, c));
    EditBrings(s, Edit(a, b), env);
    SecondEditAccepted(s, a, b, c, env);
    EditBrings(first, Edit(b, c), env);
    SecondEditConfirmable(s, a, b, c, env);
    ConfirmationBrings(second, second.db.pending[b]);
  }

  // Of the timers armed since s only that of the edit from a to b is live, and
  // b is owned with nothing else to hold it.
  ghost predicate OnlyFirstEditArmed(s: State, r: State, a: Native, b: Native) {
    var u := s.nextUnit;
    && r.now == s.now && r.pc.Idle? && r.left == s.left
    && b in r.db.owned && b !in r.db.paused && b !in r.db.pending
    && u in r.timers && r.timers[u] == Edited(s, Edit(a, b)).timers[u]
    && u + 1 in r.timers && r.timers[u + 1].status.Stopped?
    && forall v :: v in r.timers && v != u && v != u + 1 ==> v in s.timers && r.timers[v] == s.timers[v]
  }

  lemma FirstEditStrikes(s: State, r: State, a: Native, b: Native)
    requires Quiet(s) && a != b && OnlyFirstEditArmed(s, r, a, b)
    ensures var late := Next(r, Tick(RESTORE_AFTER - 1));
            var t := After(After(late, FireToEnd(s.nextUnit)), [Fire(s.nextUnit, Done), Fire(s.nextUnit, Done)]);
            && Quiet(t) && b in t.db.owned && t.host.Nowhere(b) && !Kept(t.host, t.db, t.timers, b)
  {
    assert MayAdvance(r, RESTORE_AFTER - 1);
    var late := r.(now := r.now + RESTORE_AFTER - 1);
    FirstEditUndone(late, s.nextUnit, a, b);
    NothingHolds(After(After(late, FireToEnd(s.nextUnit)), [Fire(s.nextUnit, Done), Fire(s.nextUnit, Done)]), b);
  }

  lemma NothingHolds(t: State, n: Native)
    requires !t.host.Everywhere(n) && n !in t.db.paused && n !in t.db.pending
    requires forall u :: u in t.timers ==> !t.timers[u].Live()
    ensures !Kept(t.host, t.db, t.timers, n)
  {
  }
}
