/**
 A recovery script whose command fails.  The scripts stop at their first error
 and nothing tries again.
 */
module RecoveryBroken {
  import opened Common
  import opened FirewallRules
  import opened FirewallHost
  import opened RecoveryProtocol
  import opened RecoveryInvariant
  import opened RecoveryOwned
  import opened RecoveryOwnedEdits
  import opened RecoveryProgress
  import opened RecoveryRuns
  import opened RecoveryScenarios
  import opened RecoveryHeld

  // A removal or a pause is applied and recorded, nobody confirms it, and the
  // first command of its undoing fails.
  function BrokenRun(op: Op, env: Env, u: nat, ms: nat): seq<Event> {
    [Begin(op, env), GO, GO, GO, GO, GO, Tick(RESTORE_AFTER - 1), Fire(u, Done), Fire(u, FailedClean), Tick(ms)]
  }

  // The same, while the record is yet to be stored.
  function UnsavedRun(op: Op, env: Env, u: nat): seq<Event> {
    [Begin(op, env), GO, GO, GO, GO, Tick(RESTORE_AFTER - 1), Fire(u, Done), Fire(u, FailedClean)]
  }

  predicate Saves(run: seq<Event>, i: nat, op: Op, env: Env) {
    i + 5 <= |run| && run[i] == Begin(op, env) && run[i + 1] == run[i + 2] == run[i + 3] == run[i + 4] == GO
  }

  predicate Breaks(run: seq<Event>, i: nat, u: nat) {
    i + 3 <= |run| && run[i] == Tick(RESTORE_AFTER - 1) && run[i + 1] == Fire(u, Done) && run[i + 2] == Fire(u, FailedClean)
  }

  // Of all timers only u may be live, and it is held or recorded.
  ghost predicate OnlyOwn(s: State, u: nat) {
    && (forall v :: v in s.timers && s.timers[v].Live() ==> v == u)
    && (forall l :: l in s.left ==> l.phase.None?) && !Finishing(s.pc)
    && (u in s.timers ==> HeldUnit(s.pc) == Some(u) || exists n :: n in s.db.pending && s.db.pending[n].timer == u)
    && HeldUnbroken(s)
  }

  lemma OnlyOwnIsTidy(s: State, u: nat)
    requires OnlyOwn(s, u)
    ensures Tidy(s)
  {
  }

  // A tidy run has come to the state t.
  ghost predicate Reaches(s: State, run: seq<Event>, i: nat, t: State) {
    i <= |run| && TidyRun(s, run, i) && At(s, run, i) == t
  }

  lemma OneStepOn(s: State, run: seq<Event>, i: nat, t: State, r: State)
    requires i < |run| && Reaches(s, run, i, t) && r == Next(t, run[i]) && Tidy(r)
    requires !run[i].External? && (run[i].Begin? ==> !run[i].op.kind.EditExternal?)
    ensures Reaches(s, run, i + 1, r)
  {
    TidyOneMore(s, run, i);
  }

  // ----- The states of the run -----

  ghost predicate Removes(op: Op) {
    LeavesRule(op.kind) && op.dest == op.id
  }

  // The handler of the operation is at this phase of its only helper.
  ghost function InPhase(s: State, op: Op, host: Host, phase: Phase): State {
    ArmedFor(s, op).(host := host, pc := Applying(op, Some(s.nextUnit), s.now, 0, phase))
  }

  ghost function AtSaving(s: State, op: Op): State {
    ArmedFor(s, op).(host := Applied(s.host, Change(false, op.id)), pc := Saving(op, s.nextUnit))
  }

  lemma HelperPhases(s: State, op: Op)
    requires Removes(op) && Admits(s.host, Change(false, op.id))
    ensures var h := s.host.Set(Runtime, op.id, false);
            && HandlerStep(ArmedFor(s, op), Done, 1) == InPhase(s, op, s.host, RuntimeStep)
            && HandlerStep(InPhase(s, op, s.host, RuntimeStep), Done, 1) == InPhase(s, op, h, PermanentStep)
            && HandlerStep(InPhase(s, op, h, PermanentStep), Done, 1) == AtSaving(s, op)
  {
    assert Changes(op) == [Change(false, op.id)];
  }

  lemma FreshIsOwn(s: State, t: State, op: Op)
    requires Inv(s) && Quiet(s) && t.left == s.left && t.timers == ArmedFor(s, op).timers && HeldUnit(t.pc) == Some(s.nextUnit)
    requires !Finishing(t.pc)
    ensures OnlyOwn(t, s.nextUnit)
  {
  }

  // From the request to the moment at which its record is to be stored.
  lemma ReachesSaving(z: State, run: seq<Event>, i: nat, s: State, op: Op, env: Env)
    requires Inv(s) && Quiet(s) && Accepts(s, op, env) && Removes(op) && Admits(s.host, Change(false, op.id))
    requires Saves(run, i, op, env) && Reaches(z, run, i, s)
    ensures Reaches(z, run, i + 5, AtSaving(s, op))
  {
    ReachesArmed(z, run, i, s, op, env);
    HelperRuns(z, run, i + 2, s, op);
  }

  lemma ReachesSaved(z: State, run: seq<Event>, i: nat, s: State, op: Op)
    requires Inv(s) && Quiet(s) && Removes(op) && i < |run| && run[i] == GO && Reaches(z, run, i, AtSaving(s, op))
    ensures Reaches(z, run, i + 1, Edited(s, op))
  {
    SavedFrom(s, op);
    SavedIsOwn(s, op);
    OnlyOwnIsTidy(Edited(s, op), s.nextUnit);
    OneStepOn(z, run, i, AtSaving(s, op), Edited(s, op));
  }

  lemma ReachesArmed(z: State, run: seq<Event>, i: nat, s: State, op: Op, env: Env)
    requires Inv(s) && Quiet(s) && Accepts(s, op, env) && Removes(op)
    requires i + 2 <= |run| && run[i] == Begin(op, env) && run[i + 1] == GO && Reaches(z, run, i, s)
    ensures Reaches(z, run, i + 2, ArmedFor(s, op))
  {
    ReachesArming(z, run, i, s, op, env);
    ArmsFrom(s, op);
    TidyFresh(s, ArmedFor(s, op), op);
    OneStepOn(z, run, i + 1, s.(pc := Arming(op, s.now)), ArmedFor(s, op));
  }

  lemma ReachesArming(z: State, run: seq<Event>, i: nat, s: State, op: Op, env: Env)
    requires Inv(s) && Quiet(s) && Accepts(s, op, env) && Removes(op)
    requires i < |run| && run[i] == Begin(op, env) && Reaches(z, run, i, s)
    ensures Reaches(z, run, i + 1, s.(pc := Arming(op, s.now)))
  {
    var arming := s.(pc := Arming(op, s.now));
    BeginsFrom(s, op, env);
    OnlyOwnIsTidy(arming, s.nextUnit);
    OneStepOn(z, run, i, s, arming);
  }

  lemma BeginsFrom(s: State, op: Op, env: Env)
    requires s.pc.Idle? && Accepts(s, op, env) && op.kind.IsArmed()
    ensures Next(s, Begin(op, env)) == s.(pc := Arming(op, s.now))
  {
  }

  lemma ArmsFrom(s: State, op: Op)
    ensures HandlerStep(s.(pc := Arming(op, s.now)), Done, 1) == ArmedFor(s, op)
  {
  }

  lemma HelperRuns(z: State, run: seq<Event>, i: nat, s: State, op: Op)
    requires Inv(s) && Quiet(s) && Removes(op) && Admits(s.host, Change(false, op.id))
    requires i + 3 <= |run| && run[i] == GO && run[i + 1] == GO && run[i + 2] == GO
    requires Reaches(z, run, i, ArmedFor(s, op))
    ensures Reaches(z, run, i + 3, AtSaving(s, op))
  {
    HelperPhases(s, op);
    var a := InPhase(s, op, s.host, RuntimeStep);
    var b := InPhase(s, op, s.host.Set(Runtime, op.id, false), PermanentStep);
    GoesOn(z, run, i, s, op, ArmedFor(s, op), a);
    GoesOn(z, run, i + 1, s, op, a, b);
    GoesOn(z, run, i + 2, s, op, b, AtSaving(s, op));
  }

  // The handler takes one step, with its timer as it was armed.
  lemma GoesOn(z: State, run: seq<Event>, i: nat, s: State, op: Op, t: State, r: State)
    requires Inv(s) && Quiet(s) && i < |run| && run[i] == GO && Reaches(z, run, i, t) && r == HandlerStep(t, Done, 1)
    requires r.left == s.left && r.timers == ArmedFor(s, op).timers && HeldUnit(r.pc) == Some(s.nextUnit) && !Finishing(r.pc)
    ensures Reaches(z, run, i + 1, r)
  {
    TidyFresh(s, r, op);
    OneStepOn(z, run, i, t, r);
  }

  lemma TidyFresh(s: State, t: State, op: Op)
    requires Inv(s) && Quiet(s) && t.left == s.left && t.timers == ArmedFor(s, op).timers && HeldUnit(t.pc) == Some(s.nextUnit)
    requires !Finishing(t.pc)
    ensures Tidy(t)
  {
    FreshIsOwn(s, t, op);
    OnlyOwnIsTidy(t, s.nextUnit);
  }

  // ----- The script breaks off -----

  function WithStatus(t: State, u: nat, status: Status): State
    requires u in t.timers
  {
    t.(timers := t.timers[u := t.timers[u].(status := status)])
  }

  // The timer starts, and its first command fails.
  lemma BreaksAtOnce(t: State, u: nat)
    requires u in t.timers && t.timers[u].status.Waiting? && t.timers[u].fireAt <= t.now && t.timers[u].script != []
    ensures var started := Next(t, Fire(u, Done));
            started == WithStatus(t, u, Running(0)) && Next(started, Fire(u, FailedClean)) == WithStatus(t, u, Broken)
  {
  }

  // From the moment of the timer to the failure of its first command.
  lemma BreaksOff(z: State, run: seq<Event>, i: nat, t: State, u: nat)
    requires Breaks(run, i, u) && Reaches(z, run, i, t)
    requires OnlyOwn(t, u) && HeldUnit(t.pc).None? && DueInTime(t, u)
    ensures Reaches(z, run, i + 3, BrokenAt(t, u)) && OnlyOwn(BrokenAt(t, u), u)
  {
    var late := t.(now := t.now + RESTORE_AFTER - 1);
    TicksTo(t, u);
    StillOwn(t, late, u);
    OneStepOn(z, run, i, t, late);
    BreaksAtOnce(late, u);
    StillOwn(t, WithStatus(late, u, Running(0)), u);
    OneStepOn(z, run, i + 1, late, WithStatus(late, u, Running(0)));
    StillOwn(t, BrokenAt(t, u), u);
    OneStepOn(z, run, i + 2, WithStatus(late, u, Running(0)), BrokenAt(t, u));
  }

  function BrokenAt(t: State, u: nat): State
    requires u in t.timers
  {
    WithStatus(t.(now := t.now + RESTORE_AFTER - 1), u, Broken)
  }

  lemma TicksTo(t: State, u: nat)
    requires OnlyOwn(t, u) && DueInTime(t, u)
    ensures Next(t, Tick(RESTORE_AFTER - 1)) == t.(now := t.now + RESTORE_AFTER - 1)
  {
    assert MayAdvance(t, RESTORE_AFTER - 1);
  }

  predicate DueInTime(t: State, u: nat) {
    && u in t.timers && t.timers[u].status.Waiting? && t.timers[u].script != []
    && t.timers[u].fireAt <= t.now + RESTORE_AFTER - 1 < t.timers[u].deadline
  }

  lemma StillOwn(t: State, r: State, u: nat)
    requires OnlyOwn(t, u) && u in t.timers && u in r.timers && HeldUnit(t.pc).None?
    requires r == t.(now := r.now, timers := t.timers[u := r.timers[u]])
    ensures OnlyOwn(r, u) && Tidy(r)
  {
  }

  // Nothing is left of the operation but its timer.
  lemma SavedIsOwn(s: State, op: Op)
    requires Inv(s) && Quiet(s)
    ensures OnlyOwn(Edited(s, op), s.nextUnit)
    ensures op.kind.IsArmed() ==> DueInTime(Edited(s, op), s.nextUnit) && HeldUnit(Edited(s, op).pc).None?
  {
    assert Edited(s, op).db.pending[op.id].timer == s.nextUnit;
  }

  lemma SavedFrom(s: State, op: Op)
    requires Removes(op) && s.pc.Idle?
    ensures HandlerStep(AtSaving(s, op), Done, 1) == Edited(s, op)
  {
    assert Changes(op) == [Change(false, op.id)];
    assert AppliedFirst(s.host, op, 0) == s.host;
  }

  predicate MayBeLost(s: State, op: Op) {
    LeavesRule(op.kind) && (!IsStaged(op.kind) ==> op.id !in s.db.paused)
  }

  // Removals and pauses of rules that the helper finds as they should be.
  lemma AcceptedRemoval(s: State, op: Op, env: Env)
    requires Accepts(s, op, env) && MayBeLost(s, op) && (op.kind.RemoveAllow? ==> Admits(s.host, Change(false, op.id)))
    ensures Removes(op) && Admits(s.host, Change(false, op.id)) && op.id in s.db.owned && op.id !in s.db.paused
  {
    if !op.kind.RemoveAllow? {
      AcceptedGoes(s, op, env);
      assert Admits(AppliedFirst(s.host, op, 0), Changes(op)[0]);
    }
  }

  // From the request to the state in which its record is stored.
  lemma RecordedFrom(z: State, run: seq<Event>, i: nat, s: State, op: Op, env: Env)
    requires Inv(s) && Quiet(s) && Accepts(s, op, env) && Removes(op) && Admits(s.host, Change(false, op.id))
    requires Saves(run, i, op, env) && i + 6 <= |run| && run[i + 5] == GO && Reaches(z, run, i, s)
    ensures Reaches(z, run, i + 6, Edited(s, op))
  {
    ReachesSaving(z, run, i, s, op, env);
    ReachesSaved(z, run, i + 5, s, op);
  }

  lemma BrokenAfter(z: State, run: seq<Event>, i: nat, t: State, u: nat, ms: nat)
    requires Breaks(run, i, u) && i + 4 <= |run| && run[i + 3] == Tick(ms) && Reaches(z, run, i, t)
    requires OnlyOwn(t, u) && HeldUnit(t.pc).None? && DueInTime(t, u)
    ensures Reaches(z, run, i + 4, BrokenAt(t, u).(now := t.now + RESTORE_AFTER - 1 + ms))
  {
    BreaksOff(z, run, i, t, u);
    TimePasses(z, run, i + 3, BrokenAt(t, u), u, ms);
  }

  lemma TimePasses(z: State, run: seq<Event>, i: nat, t: State, u: nat, ms: nat)
    requires i < |run| && run[i] == Tick(ms) && Reaches(z, run, i, t) && OnlyOwn(t, u) && IsBroken(t, u)
    ensures Reaches(z, run, i + 1, t.(now := t.now + ms))
  {
    assert MayAdvance(t, ms);
    OnlyOwnIsTidy(t.(now := t.now + ms), u);
    OneStepOn(z, run, i, t, t.(now := t.now + ms));
  }

  lemma LostForGood(s: State, op: Op, ms: nat)
    requires Quiet(s) && Removes(op) && op.id in s.db.owned && op.id !in s.db.paused && ms >= 1
    ensures var t := BrokenAt(Edited(s, op), s.nextUnit).(now := s.now + RESTORE_AFTER - 1 + ms);
            Forsaken(t, Pending(op, s.nextToken, s.nextUnit, s.now + RESTORE_AFTER)) && IsBroken(t, s.nextUnit)
  {
    assert Changes(op) == [Change(false, op.id)];
    assert AppliedFirst(s.host, op, 0) == s.host;
  }

  ghost predicate BreaksAway(s: State, run: seq<Event>, p: Pending) {
    exists t :: Reaches(s, run, |run|, t) && Forsaken(t, p) && IsBroken(t, p.timer)
  }

  // An accepted removal or pause is applied and recorded.  Nobody confirms it,
  // and the first command of its undoing fails.  The run is tidy; in the end the
  // rule is closed, owned and held by nothing but an expired record, and no
  // timer will ever put it back.
  lemma BrokenUndoForsakes(s: State, op: Op, env: Env, ms: nat)
    requires Inv(s) && Quiet(s) && Accepts(s, op, env) && MayBeLost(s, op) && ms >= 1
    requires op.kind.RemoveAllow? ==> Admits(s.host, Change(false, op.id))
    ensures BreaksAway(s, BrokenRun(op, env, s.nextUnit, ms),
                       Pending(op, s.nextToken, s.nextUnit, s.now + RESTORE_AFTER))
  {
    AcceptedRemoval(s, op, env);
    var run := BrokenRun(op, env, s.nextUnit, ms);
    RunIsBroken(run, op, env, s.nextUnit, ms);
    ReachesStart(s, run);
    BrokenFrom(s, run, 0, op, env, ms);
  }

  lemma RunIsBroken(run: seq<Event>, op: Op, env: Env, u: nat, ms: nat)
    requires run == BrokenRun(op, env, u, ms)
    ensures |run| == 10 && Saves(run, 0, op, env) && run[5] == GO && Breaks(run, 6, u) && run[9] == Tick(ms)
  {
  }

  lemma ReachesStart(s: State, run: seq<Event>)
    requires Quiet(s) && Inv(s)
    ensures Reaches(s, run, 0, s)
  {
    OnlyOwnIsTidy(s, s.nextUnit);
  }

  lemma BrokenFrom(s: State, run: seq<Event>, i: nat, op: Op, env: Env, ms: nat)
    requires Inv(s) && Quiet(s) && Accepts(s, op, env) && Removes(op) && Admits(s.host, Change(false, op.id))
    requires Reaches(s, run, i, s) && |run| == i + 10 && Saves(run, i, op, env) && run[i + 5] == GO
    requires Breaks(run, i + 6, s.nextUnit) && run[i + 9] == Tick(ms)
    requires op.id in s.db.owned && op.id !in s.db.paused && ms >= 1
    ensures BreaksAway(s, run, Pending(op, s.nextToken, s.nextUnit, s.now + RESTORE_AFTER))
  {
    LostForGood(s, op, ms);
    RecordedFrom(s, run, i, s, op, env);
    BreaksAwayFrom(s, run, i + 6, op, ms);
  }

  lemma BreaksAwayFrom(s: State, run: seq<Event>, j: nat, op: Op, ms: nat)
    requires Inv(s) && Quiet(s) && Removes(op) && Reaches(s, run, j, Edited(s, op))
    requires Breaks(run, j, s.nextUnit) && |run| == j + 4 && run[j + 3] == Tick(ms)
    requires var t := BrokenAt(Edited(s, op), s.nextUnit).(now := s.now + RESTORE_AFTER - 1 + ms);
             Forsaken(t, Pending(op, s.nextToken, s.nextUnit, s.now + RESTORE_AFTER)) && IsBroken(t, s.nextUnit)
    ensures BreaksAway(s, run, Pending(op, s.nextToken, s.nextUnit, s.now + RESTORE_AFTER))
  {
    var t, u := Edited(s, op), s.nextUnit;
    SavedIsOwn(s, op);
    assert OnlyOwn(t, u) && HeldUnit(t.pc).None? && DueInTime(t, u);
    BrokenAfter(s, run, j, t, u, ms);
  }

  // ----- A script that breaks off before its record is stored -----

  lemma BreaksInTime(z: State, run: seq<Event>, i: nat, t: State, u: nat)
    requires Breaks(run, i, u) && At(z, run, i) == t && OnlyOwn(t, u) && DueInTime(t, u)
    ensures At(z, run, i + 3) == BrokenAt(t, u)
  {
    var late := t.(now := t.now + RESTORE_AFTER - 1);
    TicksTo(t, u);
    assert At(z, run, i + 1) == late;
    BreaksAtOnce(late, u);
    assert At(z, run, i + 2) == WithStatus(late, u, Running(0));
  }

  lemma SavingIsOwn(s: State, op: Op)
    requires Inv(s) && Quiet(s) && op.kind.IsArmed()
    ensures OnlyOwn(AtSaving(s, op), s.nextUnit) && DueInTime(AtSaving(s, op), s.nextUnit)
  {
    FreshIsOwn(s, AtSaving(s, op), op);
  }

  lemma UnsavedFrom(z: State, run: seq<Event>, i: nat, s: State, op: Op, env: Env)
    requires Inv(s) && Quiet(s) && Accepts(s, op, env) && Removes(op) && Admits(s.host, Change(false, op.id))
    requires Saves(run, i, op, env) && Breaks(run, i + 5, s.nextUnit) && Reaches(z, run, i, s)
    ensures At(z, run, i + 8) == BrokenAt(AtSaving(s, op), s.nextUnit)
  {
    ReachesSaving(z, run, i, s, op, env);
    SavingIsOwn(s, op);
    BreaksInTime(z, run, i + 5, AtSaving(s, op), s.nextUnit);
  }

  // The record of the operation is still to be stored, its script has broken
  // off, and its rule is owned and not held.
  ghost predicate Bare(t: State, op: Op, u: nat) {
    && t.pc == Saving(op, u) && !HeldUnbroken(t)
    && op.id in t.db.owned && !Kept(t.host, t.db, t.timers, op.id)
  }

  // When the script breaks off while the record is still to be stored, nothing
  // at all holds the rule at that moment.
  lemma BrokenBeforeSaved(s: State, op: Op, env: Env)
    requires Inv(s) && Quiet(s) && Accepts(s, op, env) && MayBeLost(s, op) && op.id !in s.db.pending
    requires op.kind.RemoveAllow? ==> Admits(s.host, Change(false, op.id))
    ensures var run := UnsavedRun(op, env, s.nextUnit);
            Bare(At(s, run, |run|), op, s.nextUnit)
  {
    AcceptedRemoval(s, op, env);
    var run := UnsavedRun(op, env, s.nextUnit);
    RunIsUnsaved(run, op, env, s.nextUnit);
    ReachesStart(s, run);
    UnsavedIsBare(s, run, 0, op, env);
  }

  lemma UnsavedIsBare(s: State, run: seq<Event>, i: nat, op: Op, env: Env)
    requires Inv(s) && Quiet(s) && Accepts(s, op, env) && Removes(op) && Admits(s.host, Change(false, op.id))
    requires Saves(run, i, op, env) && Breaks(run, i + 5, s.nextUnit) && |run| == i + 8 && Reaches(s, run, i, s)
    requires op.id in s.db.owned && op.id !in s.db.paused && op.id !in s.db.pending
    ensures Bare(At(s, run, |run|), op, s.nextUnit)
  {
    UnsavedFrom(s, run, i, s, op, env);
    NothingHeldYet(s, op);
  }

  lemma RunIsUnsaved(run: seq<Event>, op: Op, env: Env, u: nat)
    requires run == UnsavedRun(op, env, u)
    ensures |run| == 8 && Saves(run, 0, op, env) && Breaks(run, 5, u)
  {
  }

  lemma NothingHeldYet(s: State, op: Op)
    requires Quiet(s) && op.id in s.db.owned && op.id !in s.db.paused && op.id !in s.db.pending
    ensures Bare(BrokenAt(AtSaving(s, op), s.nextUnit), op, s.nextUnit)
  {
    NothingHolds(BrokenAt(AtSaving(s, op), s.nextUnit), op.id);
  }
}
